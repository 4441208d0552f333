/** The kernel maps of the trigger shared by all namespaces, with their capacity of 1024 entries,
    and the steps the Go side takes on them
    (autoscaler/conc_req_monitoring/conc_req_monitoring.go). */
module KernelTables {
  import opened Prelude
  import opened Trigger

  const MAX_ENTRIES: nat := 1024

  /** `valid` is the key set of valid_netns_map, whose values are never read.
      `exited` is set once the process has ended through log.Fatalf. */
  datatype Tables = Tables(
    counts: map<uint32, uint32>,
    buffers: map<uint32, uint32>,
    gates: map<uint32, uint32>,
    valid: set<uint32>,
    exited: bool)

  /** A BPF hash map takes a new key only below its capacity. */
  predicate Room(m: map<uint32, uint32>, key: uint32) {
    key in m || |m| < MAX_ENTRIES
  }

  /** An update, silently refused when there is no room. */
  function Put(m: map<uint32, uint32>, key: uint32, value: uint32): map<uint32, uint32> {
    if Room(m, key) then m[key := value] else m
  }

  function Lookup(m: map<uint32, uint32>, key: uint32): Option<uint32> {
    if key in m then Some(m[key]) else None
  }

  function Written(m: map<uint32, uint32>, key: uint32, value: Option<uint32>): map<uint32, uint32> {
    match value
    case Some(x) => m[key := x]
    case None => m - {key}
  }

  function View(t: Tables, ns: uint32): Track {
    Track(ns in t.valid, Lookup(t.counts, ns), Lookup(t.buffers, ns), Lookup(t.gates, ns))
  }

  /** The tables with one namespace's entries replaced. */
  function Store(t: Tables, ns: uint32, v: Track): Tables {
    Tables(
      Written(t.counts, ns, v.count), Written(t.buffers, ns, v.buffer), Written(t.gates, ns, v.gate),
      if v.valid then t.valid + {ns} else t.valid - {ns}, t.exited)
  }

  lemma StoreView(t: Tables, ns: uint32, v: Track, n: uint32)
    ensures View(Store(t, ns, v), n) == if n == ns then v else View(t, n)
  {
  }

  lemma WrittenSame(m: map<uint32, uint32>, key: uint32)
    ensures Written(m, key, Lookup(m, key)) == m
  {
  }

  /** Counters and buffers exist only for valid namespaces, so they can never run out of room;
      scaling entries have no such bound because nothing deletes them. */
  ghost predicate WellFormed(t: Tables) {
    && t.counts.Keys <= t.valid && t.buffers.Keys <= t.valid
    && |t.valid| <= MAX_ENTRIES && |t.gates| <= MAX_ENTRIES
  }

  lemma ValidHasRoom(t: Tables, ns: uint32)
    requires WellFormed(t) && (ns in t.valid || |t.valid| < MAX_ENTRIES)
    ensures Room(t.counts, ns) && Room(t.buffers, ns)
  {
    SubsetSize(t.counts.Keys, t.valid);
    SubsetSize(t.buffers.Keys, t.valid);
  }

  // ----- the steps on one namespace -----

  function Added(v: Track, gateRoom: bool): Track {
    Track(true, Some(0), v.buffer, if gateRoom then Some(0) else v.gate)
  }

  function Rearmed(v: Track, gateRoom: bool): Track {
    v.(gate := if gateRoom then Some(0) else v.gate)
  }

  /** The deletion stops at the first map that has no entry. The scaling entry stays. */
  function Removed(v: Track): (Track, bool) {
    if v.count.None? then (v, false)
    else if v.buffer.None? then (v.(count := None), false)
    else if !v.valid then (v.(count := None, buffer := None), false)
    else (v.(count := None, buffer := None, valid := false), true)
  }

  // ----- the same steps on the tables -----

  function ProbeTables(t: Tables, lim: Limits, ns: uint32, established: bool): (Tables, Option<Side>) {
    var (v, event) := Probe(View(t, ns), lim, established, Room(t.gates, ns));
    (Store(t, ns, v), event)
  }

  /** Adding a namespace ends the process when a map that must take it is full. */
  function AddTables(t: Tables, ns: uint32): Tables {
    if Room(t.counts, ns) && (ns in t.valid || |t.valid| < MAX_ENTRIES) then
      Store(t, ns, Added(View(t, ns), Room(t.gates, ns)))
    else
      t.(exited := true)
  }

  function RearmTables(t: Tables, ns: uint32): Tables {
    Store(t, ns, Rearmed(View(t, ns), Room(t.gates, ns)))
  }

  function RemoveTables(t: Tables, ns: uint32): (Tables, bool) {
    var (v, ok) := Removed(View(t, ns));
    (Store(t, ns, v), ok)
  }

  /** Re-arming only writes the scaling entry. */
  lemma RearmByMaps(t: Tables, ns: uint32)
    ensures RearmTables(t, ns) == t.(gates := Put(t.gates, ns, 0))
  {
    WrittenSame(t.counts, ns);
    WrittenSame(t.buffers, ns);
    WrittenSame(t.gates, ns);
    assert if ns in t.valid then t.valid + {ns} == t.valid else t.valid - {ns} == t.valid;
  }

  /** An addition ends the process exactly when one of the two maps that must take it is full. */
  lemma AddByMaps(t: Tables, ns: uint32)
    requires WellFormed(t) && !t.exited
    ensures AddTables(t, ns).exited <==> !(Room(t.counts, ns) && (ns in t.valid || |t.valid| < MAX_ENTRIES))
    ensures !AddTables(t, ns).exited ==>
      && WellFormed(AddTables(t, ns))
      && AddTables(t, ns) == t.(counts := t.counts[ns := 0], valid := t.valid + {ns}, gates := Put(t.gates, ns, 0))
  {
    if !AddTables(t, ns).exited {
      WrittenSame(t.buffers, ns);
      WrittenSame(t.gates, ns);
      StoreKeepsWellFormed(t, ns, Added(View(t, ns), Room(t.gates, ns)));
    }
  }

  /** A removal deletes a counter, then a buffer, then the valid entry, as far as it gets. */
  lemma RemoveByMaps(t: Tables, ns: uint32)
    requires WellFormed(t)
    ensures var u := t.(counts := t.counts - {ns});
      RemoveTables(t, ns) ==
        if ns !in t.counts then (t, false)
        else if ns !in t.buffers then (u, false)
        else (u.(buffers := t.buffers - {ns}, valid := t.valid - {ns}), true)
  {
    WrittenSame(t.counts, ns);
    WrittenSame(t.buffers, ns);
    WrittenSame(t.gates, ns);
    assert if ns in t.valid then t.valid + {ns} == t.valid else t.valid - {ns} == t.valid;
  }

  /** The entries of a valid namespace after a probe: it counts first, then, unless disarmed, debounces. */
  lemma ProbeEntries(v: Track, lim: Limits, established: bool, gateRoom: bool)
    requires v.valid
    ensures var (w, side) := Probe(v, lim, established, gateRoom);
      var sample := Counted(v.count.GetOr(0), established);
      var buffered := if lim.Outside(sample) then Next32(v.Buffered()) else 0;
      && w.valid && w.count == Some(if v.count.Some? then sample else 0)
      && if v.gate == Some(1) then w.buffer == v.buffer && w.gate == v.gate && side == None
         else if buffered == lim.bufferLength then
           w.buffer == Some(0) && w.gate == (if gateRoom then Some(1) else v.gate) && side == Some(lim.SideOf(sample))
         else w.buffer == Some(buffered) && w.gate == v.gate && side == None
  {
  }

  lemma StoreByMaps(t: Tables, ns: uint32, w: Track)
    requires ns in t.valid && w.valid && w.count.Some?
    requires w.gate == Lookup(t.gates, ns) || w.gate.Some?
    requires w.buffer == Lookup(t.buffers, ns) || w.buffer.Some?
    ensures Store(t, ns, w) == t.(
      counts := t.counts[ns := w.count.value],
      buffers := if w.buffer == Lookup(t.buffers, ns) then t.buffers else t.buffers[ns := w.buffer.value],
      gates := if w.gate == Lookup(t.gates, ns) then t.gates else t.gates[ns := w.gate.value])
  {
    WrittenSame(t.buffers, ns);
    WrittenSame(t.gates, ns);
    assert t.valid + {ns} == t.valid;
  }

  /** Everything a caller needs of one probe of a valid namespace, map by map. */
  lemma ProbeByMaps(t: Tables, lim: Limits, ns: uint32, established: bool)
    requires WellFormed(t) && ns in t.valid
    ensures var (t', side) := ProbeTables(t, lim, ns, established);
      var sample := Counted(Lookup(t.counts, ns).GetOr(0), established);
      && t'.counts == t.counts[ns := if ns in t.counts then sample else 0]
      && t'.valid == t.valid && t'.exited == t.exited
      && if Lookup(t.gates, ns) == Some(1) then t'.buffers == t.buffers && t'.gates == t.gates && side == None
         else (t'.buffers, t'.gates, side) == Debounced(t.buffers, t.gates, lim, ns, sample)
  {
    ProbeEntries(View(t, ns), lim, established, Room(t.gates, ns));
    StoreByMaps(t, ns, Probe(View(t, ns), lim, established, Room(t.gates, ns)).0);
  }

  /** The debounce of one sample of an armed namespace. */
  function Debounced(buffers: map<uint32, uint32>, gates: map<uint32, uint32>, lim: Limits, ns: uint32, sample: uint32)
    : (map<uint32, uint32>, map<uint32, uint32>, Option<Side>)
  {
    var buffered := if lim.Outside(sample) then Next32(Lookup(buffers, ns).GetOr(0)) else 0;
    if buffered == lim.bufferLength then (buffers[ns := 0], Put(gates, ns, 1), Some(lim.SideOf(sample)))
    else (buffers[ns := buffered], gates, None)
  }

  // ----- runs over many namespaces -----

  datatype Op =
    | Add(ns: uint32)
    | Call(ns: uint32, established: bool)
    | Rearm(ns: uint32)
    | Remove(ns: uint32)

  function Apply(t: Tables, lim: Limits, op: Op): (Tables, Option<Side>) {
    if t.exited then (t, None)
    else
      match op
      case Add(ns) => (AddTables(t, ns), None)
      case Call(ns, established) => ProbeTables(t, lim, ns, established)
      case Rearm(ns) => (RearmTables(t, ns), None)
      case Remove(ns) => (RemoveTables(t, ns).0, None)
  }

  /** The same step on one namespace alone, with maps that never fill. */
  function ApplyLocal(v: Track, lim: Limits, op: Op): (Track, Option<Side>) {
    match op
    case Add(_) => (Added(v, true), None)
    case Call(_, established) => Probe(v, lim, established, true)
    case Rearm(_) => (Rearmed(v, true), None)
    case Remove(_) => (Removed(v).0, None)
  }

  function Run(t: Tables, lim: Limits, ops: seq<Op>): Tables {
    if ops == [] then t else Apply(Run(t, lim, Front(ops)), lim, Last(ops)).0
  }

  function RunLocal(v: Track, lim: Limits, ops: seq<Op>): Track {
    if ops == [] then v else ApplyLocal(RunLocal(v, lim, Front(ops)), lim, Last(ops)).0
  }

  function AsSeq<T>(o: Option<T>): seq<T> {
    if o.Some? then [o.value] else []
  }

  /** The events raised for one namespace, in order. */
  function Events(t: Tables, lim: Limits, ops: seq<Op>, ns: uint32): seq<Side> {
    if ops == [] then []
    else
      Events(t, lim, Front(ops), ns) +
      if Last(ops).ns == ns then AsSeq(Apply(Run(t, lim, Front(ops)), lim, Last(ops)).1) else []
  }

  function EventsLocal(v: Track, lim: Limits, ops: seq<Op>): seq<Side> {
    if ops == [] then []
    else EventsLocal(v, lim, Front(ops)) + AsSeq(ApplyLocal(RunLocal(v, lim, Front(ops)), lim, Last(ops)).1)
  }

  /** The steps of one namespace. */
  function Project(ops: seq<Op>, ns: uint32): seq<Op> {
    if ops == [] then []
    else Project(Front(ops), ns) + if Last(ops).ns == ns then [Last(ops)] else []
  }

  /** The tables mention only namespaces of `universe`. */
  ghost predicate Within(t: Tables, universe: set<uint32>) {
    t.valid <= universe && t.gates.Keys <= universe
  }

  lemma WithinHasRoom(t: Tables, universe: set<uint32>, ns: uint32)
    requires WellFormed(t) && Within(t, universe) && |universe| <= MAX_ENTRIES && ns in universe
    ensures Room(t.counts, ns) && Room(t.buffers, ns) && Room(t.gates, ns)
    ensures ns in t.valid || |t.valid| < MAX_ENTRIES
  {
    SubsetSize(t.valid, universe);
    SubsetSize(t.gates.Keys, universe);
    ValidHasRoom(t, ns);
  }

  lemma WrittenSize(m: map<uint32, uint32>, key: uint32, value: Option<uint32>)
    requires |m| <= MAX_ENTRIES && (value.Some? ==> Room(m, key))
    ensures |Written(m, key, value)| <= MAX_ENTRIES
  {
    SubsetSize(m.Keys - {key}, m.Keys);
    var w := Written(m, key, value);
    assert |w| == |w.Keys| && |m| == |m.Keys|;
    if value.Some? {
      assert w.Keys == m.Keys + {key};
    } else {
      assert w.Keys == m.Keys - {key};
    }
  }

  /** A counter or buffer belongs to a valid namespace. */
  predicate Coherent(v: Track) {
    v.count.Some? || v.buffer.Some? ==> v.valid
  }

  lemma StoreKeepsWellFormed(t: Tables, ns: uint32, v: Track)
    requires WellFormed(t) && Coherent(v)
    requires v.valid ==> ns in t.valid || |t.valid| < MAX_ENTRIES
    requires v.gate.Some? ==> Room(t.gates, ns)
    ensures WellFormed(Store(t, ns, v))
  {
    WrittenSize(t.gates, ns, v.gate);
    SubsetSize(t.valid - {ns}, t.valid);
  }

  /** The new entries of a namespace, for every step but an addition that ends the process. */
  function NewView(t: Tables, lim: Limits, op: Op): Track {
    var v, room := View(t, op.ns), Room(t.gates, op.ns);
    match op
    case Add(ns) => Added(v, room)
    case Call(ns, established) => Probe(v, lim, established, room).0
    case Rearm(ns) => Rearmed(v, room)
    case Remove(ns) => Removed(v).0
  }

  lemma NewViewCoherent(t: Tables, lim: Limits, op: Op)
    requires WellFormed(t)
    ensures Coherent(NewView(t, lim, op))
    ensures NewView(t, lim, op).gate.Some? ==> Room(t.gates, op.ns)
    ensures NewView(t, lim, op).valid && op.ns !in t.valid ==> op.Add?
  {
  }

  lemma StepAsStore(t: Tables, lim: Limits, op: Op)
    ensures Apply(t, lim, op).0 == t || Apply(t, lim, op).0 == t.(exited := true) ||
      Apply(t, lim, op).0 == Store(t, op.ns, NewView(t, lim, op))
    ensures op.Add? && !(op.ns in t.valid || |t.valid| < MAX_ENTRIES) ==>
      Apply(t, lim, op).0 == t.(exited := true)
  {
  }

  /** Every step keeps the tables well formed, whatever the number of namespaces. */
  lemma StepKeepsWellFormed(t: Tables, lim: Limits, op: Op)
    requires WellFormed(t)
    ensures WellFormed(Apply(t, lim, op).0)
  {
    StepAsStore(t, lim, op);
    NewViewCoherent(t, lim, op);
    if !(op.Add? && !(op.ns in t.valid || |t.valid| < MAX_ENTRIES)) {
      StoreKeepsWellFormed(t, op.ns, NewView(t, lim, op));
    }
  }

  lemma ProbeKeepsWellFormed(t: Tables, lim: Limits, ns: uint32, established: bool)
    requires WellFormed(t)
    ensures WellFormed(ProbeTables(t, lim, ns, established).0)
  {
    var op := Call(ns, established);
    NewViewCoherent(t, lim, op);
    StoreKeepsWellFormed(t, ns, NewView(t, lim, op));
  }

  lemma RemoveKeepsWellFormed(t: Tables, ns: uint32)
    requires WellFormed(t)
    ensures WellFormed(RemoveTables(t, ns).0)
  {
    StoreKeepsWellFormed(t, ns, Removed(View(t, ns)).0);
  }

  lemma InvalidIsIgnored(t: Tables, lim: Limits, ns: uint32, established: bool)
    requires ns !in t.valid
    ensures ProbeTables(t, lim, ns, established) == (t, None)
  {
    WrittenSame(t.counts, ns);
    WrittenSame(t.buffers, ns);
    WrittenSame(t.gates, ns);
    assert t.valid - {ns} == t.valid;
  }

  /** Calls in namespaces never added, and their removal, change nothing. */
  lemma UntrackedIsIgnored(t: Tables, lim: Limits, op: Op)
    requires WellFormed(t) && !t.exited && op.ns !in t.valid && (op.Call? || op.Remove?)
    ensures Apply(t, lim, op) == (t, None) && ApplyLocal(View(t, op.ns), lim, op) == (View(t, op.ns), None)
  {
    if op.Call? {
      InvalidIsIgnored(t, lim, op.ns, op.established);
    } else {
      RemoveByMaps(t, op.ns);
    }
  }

  /** With at most 1024 namespaces ever added, a step acts on its own namespace and on no other. */
  lemma StepIsLocal(t: Tables, lim: Limits, op: Op, universe: set<uint32>, ns: uint32)
    requires WellFormed(t) && Within(t, universe) && !t.exited && |universe| <= MAX_ENTRIES
    requires op.Add? || op.Rearm? ==> op.ns in universe
    ensures var (t', event) := Apply(t, lim, op);
      && !t'.exited && WellFormed(t') && Within(t', universe)
      && View(t', ns) == (if op.ns == ns then ApplyLocal(View(t, ns), lim, op).0 else View(t, ns))
      && (op.ns == ns ==> event == ApplyLocal(View(t, ns), lim, op).1)
  {
    if op.ns in universe {
      WithinHasRoom(t, universe, op.ns);
      StepKeepsWellFormed(t, lim, op);
      StepAsStore(t, lim, op);
      StoreView(t, op.ns, NewView(t, lim, op), ns);
      assert Apply(t, lim, op).0 == Store(t, op.ns, NewView(t, lim, op));
    } else {
      UntrackedIsIgnored(t, lim, op);
    }
  }

  /** The run adds and re-arms namespaces of `universe` only; calls may come from any. */
  ghost predicate OpsWithin(ops: seq<Op>, universe: set<uint32>) {
    forall i | 0 <= i < |ops| :: ops[i].Add? || ops[i].Rearm? ==> ops[i].ns in universe
  }

  lemma ProjectLast(ops: seq<Op>, ns: uint32)
    requires ops != []
    ensures Last(ops).ns == ns ==>
      && Project(ops, ns) != []
      && Front(Project(ops, ns)) == Project(Front(ops), ns) && Last(Project(ops, ns)) == Last(ops)
    ensures Last(ops).ns != ns ==> Project(ops, ns) == Project(Front(ops), ns)
  {
  }

  lemma {:induction false} RunIsLocal(t: Tables, lim: Limits, ops: seq<Op>, universe: set<uint32>, ns: uint32)
    requires WellFormed(t) && Within(t, universe) && !t.exited && |universe| <= MAX_ENTRIES
    requires OpsWithin(ops, universe)
    ensures var t' := Run(t, lim, ops);
      && !t'.exited && WellFormed(t') && Within(t', universe)
      && View(t', ns) == RunLocal(View(t, ns), lim, Project(ops, ns))
    ensures Events(t, lim, ops, ns) == EventsLocal(View(t, ns), lim, Project(ops, ns))
  {
    if ops != [] {
      RunIsLocal(t, lim, Front(ops), universe, ns);
      ProjectLast(ops, ns);
      var u, v := Run(t, lim, Front(ops)), RunLocal(View(t, ns), lim, Project(Front(ops), ns));
      StepIsLocal(u, lim, Last(ops), universe, ns);
      if Last(ops).ns == ns {
        assert RunLocal(View(t, ns), lim, Project(ops, ns)) == ApplyLocal(v, lim, Last(ops)).0;
      }
    }
  }

  lemma {:induction false} ProjectTwice(ops: seq<Op>, ns: uint32, universe: set<uint32>)
    requires OpsWithin(ops, universe)
    ensures Project(Project(ops, ns), ns) == Project(ops, ns)
    ensures OpsWithin(Project(ops, ns), universe)
  {
    if ops != [] {
      ProjectTwice(Front(ops), ns, universe);
      ProjectLast(ops, ns);
      if Last(ops).ns == ns { ProjectLast(Project(ops, ns), ns); }
    }
  }

  /** Namespace independence: for any interleaving that adds at most 1024 namespaces, every
      namespace's counter, buffer, gate and events are those of running only its own steps. */
  lemma NamespaceIndependence(t: Tables, lim: Limits, ops: seq<Op>, universe: set<uint32>, ns: uint32)
    requires WellFormed(t) && Within(t, universe) && !t.exited && |universe| <= MAX_ENTRIES
    requires OpsWithin(ops, universe)
    ensures View(Run(t, lim, ops), ns) == View(Run(t, lim, Project(ops, ns)), ns)
    ensures Events(t, lim, ops, ns) == Events(t, lim, Project(ops, ns), ns)
  {
    RunIsLocal(t, lim, ops, universe, ns);
    ProjectTwice(ops, ns, universe);
    RunIsLocal(t, lim, Project(ops, ns), universe, ns);
  }

  // ----- what the missing deletion of scaling entries costs -----

  /** An event disarms its namespace exactly when the scaling map has room for the entry. */
  lemma EventDisarmsIffRoom(t: Tables, lim: Limits, ns: uint32, established: bool)
    requires ProbeTables(t, lim, ns, established).1.Some?
    ensures View(ProbeTables(t, lim, ns, established).0, ns).Armed() <==> !Room(t.gates, ns)
  {
    StoreView(t, ns, Probe(View(t, ns), lim, established, Room(t.gates, ns)).0, ns);
  }

  lemma StepKeepsGate(t: Tables, lim: Limits, op: Op)
    ensures t.gates.Keys <= Store(t, op.ns, NewView(t, lim, op)).gates.Keys
  {
    assert View(t, op.ns).gate.Some? ==> NewView(t, lim, op).gate.Some?;
  }

  /** A scaling entry is never given back, so the room is used up by every namespace ever added. */
  lemma {:induction false} GatesOnlyGrow(t: Tables, lim: Limits, ops: seq<Op>)
    ensures t.gates.Keys <= Run(t, lim, ops).gates.Keys
  {
    if ops != [] {
      GatesOnlyGrow(t, lim, Front(ops));
      var u := Run(t, lim, Front(ops));
      StepAsStore(u, lim, Last(ops));
      StepKeepsGate(u, lim, Last(ops));
    }
  }

  /** Where a namespace has no room, no step makes any. */
  lemma StepMakesNoRoom(t: Tables, lim: Limits, op: Op, ns: uint32)
    requires WellFormed(t) && !Room(t.gates, ns)
    ensures WellFormed(Apply(t, lim, op).0) && !Room(Apply(t, lim, op).0.gates, ns)
  {
    StepKeepsWellFormed(t, lim, op);
    StepAsStore(t, lim, op);
    StepKeepsGate(t, lim, op);
    NewViewCoherent(t, lim, op);
    var gates' := Apply(t, lim, op).0.gates;
    SubsetSize(t.gates.Keys, gates'.Keys);
    assert |gates'.Keys| == |gates'| && |t.gates.Keys| == |t.gates|;
  }

  /** Such a namespace is armed whenever it is tracked: none of its events disarms it. */
  lemma {:induction false} NeverDisarmed(t: Tables, lim: Limits, ops: seq<Op>, ns: uint32)
    requires WellFormed(t) && !Room(t.gates, ns)
    ensures WellFormed(Run(t, lim, ops)) && !Room(Run(t, lim, ops).gates, ns)
    ensures View(Run(t, lim, ops), ns).Armed() <==> ns in Run(t, lim, ops).valid
  {
    if ops != [] {
      NeverDisarmed(t, lim, Front(ops), ns);
      StepMakesNoRoom(Run(t, lim, Front(ops)), lim, Last(ops), ns);
    }
  }

  const EMPTY: Tables := Tables(map[], map[], map[], {}, false)

  /** The namespaces 0 to n - 1 have come and gone: only their scaling entries are left. */
  ghost predicate Spent(t: Tables, n: nat) {
    && t.counts == map[] && t.buffers == map[] && t.valid == {} && !t.exited
    && |t.gates| == n && forall k | k in t.gates :: k < n
  }

  /** `universe` holds the namespaces 0 to n - 1. */
  ghost predicate Holds(universe: set<uint32>, n: nat) {
    forall k: uint32 | k < n :: k in universe
  }

  lemma {:induction false} FirstNamespaces(n: nat) returns (universe: set<uint32>)
    requires n <= TWO_TO_THE_32
    ensures |universe| == n && Holds(universe, n) && forall k | k in universe :: k < n
  {
    if n == 0 {
      universe := {};
    } else {
      var before := FirstNamespaces(n - 1);
      universe := before + {n - 1};
    }
  }

  lemma SpentAdd(t: Tables, k: uint32)
    requires k < MAX_ENTRIES && Spent(t, k)
    ensures AddTables(t, k) == Tables(map[k := 0], map[], t.gates[k := 0], {k}, false)
  {
    AddByMaps(t, k);
  }

  lemma SpentCall(t: Tables, lim: Limits, k: uint32, gates: map<uint32, uint32>)
    requires t == Tables(map[k := 0], map[], gates, {k}, false) && k in gates && gates[k] == 0 && |gates| <= MAX_ENTRIES
    ensures var t' := ProbeTables(t, lim, k, false).0;
      && t'.counts == map[k := 0] && t'.buffers.Keys == {k} && t'.valid == {k} && !t'.exited
      && t'.gates.Keys == gates.Keys && WellFormed(t')
  {
    ProbeByMaps(t, lim, k, false);
    ProbeKeepsWellFormed(t, lim, k, false);
  }

  lemma SpentRemove(t: Tables, k: uint32, gates: set<uint32>)
    requires WellFormed(t) && t.counts == map[k := 0] && t.buffers.Keys == {k} && t.valid == {k} && !t.exited
    requires t.gates.Keys == gates && |gates| == k + 1 && forall m | m in gates :: m <= k
    ensures RemoveTables(t, k).1 && Spent(RemoveTables(t, k).0, k + 1)
  {
    RemoveByMaps(t, k);
    assert t.counts - {k} == map[] && t.buffers - {k} == map[] && t.valid - {k} == {};
    assert |t.gates.Keys| == |t.gates|;
  }

  /** A namespace is added, called in once and removed: it leaves its scaling entry behind. */
  lemma CycleSpends(t: Tables, lim: Limits, k: uint32)
    requires k < MAX_ENTRIES && Spent(t, k)
    ensures var t1 := AddTables(t, k);
      var t2 := ProbeTables(t1, lim, k, false).0;
      !t1.exited && !t2.exited && RemoveTables(t2, k).1 && Spent(RemoveTables(t2, k).0, k + 1)
  {
    hide AddTables, ProbeTables, RemoveTables;
    var gates := t.gates[k := 0];
    SpentAdd(t, k);
    SpentCall(AddTables(t, k), lim, k, gates);
    assert |gates.Keys| == |gates| == k + 1;
    hide Spent;
    SpentRemove(ProbeTables(AddTables(t, k), lim, k, false).0, k, gates.Keys);
  }

  function Cycles(n: nat): seq<Op>
    requires n <= MAX_ENTRIES
  {
    if n == 0 then [] else Cycles(n - 1) + [Add(n - 1)] + [Call(n - 1, false)] + [Remove(n - 1)]
  }

  lemma RunOne(t: Tables, lim: Limits, ops: seq<Op>, a: Op)
    ensures Run(t, lim, ops + [a]) == Apply(Run(t, lim, ops), lim, a).0
  {
    assert Front(ops + [a]) == ops;
  }

  lemma WithinGrows(ops: seq<Op>, op: Op, universe: set<uint32>)
    requires OpsWithin(ops, universe) && (op.Add? || op.Rearm? ==> op.ns in universe)
    ensures OpsWithin(ops + [op], universe)
  {
  }

  lemma RunThree(t: Tables, lim: Limits, ops: seq<Op>, a: Op, b: Op, c: Op)
    ensures Run(t, lim, ops + [a] + [b] + [c]) ==
      Apply(Apply(Apply(Run(t, lim, ops), lim, a).0, lim, b).0, lim, c).0
  {
    hide Run, Apply;
    RunOne(t, lim, ops, a);
    RunOne(t, lim, ops + [a], b);
    RunOne(t, lim, ops + [a] + [b], c);
  }

  lemma {:induction false} CyclesSpend(lim: Limits, n: nat)
    requires n <= MAX_ENTRIES
    ensures Spent(Run(EMPTY, lim, Cycles(n)), n)
  {
    if n == 0 {
      assert Cycles(0) == [] && Run(EMPTY, lim, []) == EMPTY;
    } else {
      var k, t := n - 1, Run(EMPTY, lim, Cycles(n - 1));
      hide Run, Spent, Apply;
      CyclesSpend(lim, k);
      SpentRuns(t, lim, k);
      RunThree(EMPTY, lim, Cycles(k), Add(k), Call(k, false), Remove(k));
    }
  }

  lemma {:induction false} CyclesWithin(n: nat, universe: set<uint32>)
    requires n <= MAX_ENTRIES && Holds(universe, n)
    ensures OpsWithin(Cycles(n), universe)
  {
    if n > 0 {
      CyclesWithin(n - 1, universe);
      assert n - 1 in universe;
    }
  }

  /** A cycle as three steps of a run. */
  lemma SpentRuns(t: Tables, lim: Limits, k: uint32)
    requires k < MAX_ENTRIES && Spent(t, k)
    ensures Spent(Apply(Apply(Apply(t, lim, Add(k)).0, lim, Call(k, false)).0, lim, Remove(k)).0, k + 1)
  {
    hide AddTables, ProbeTables, RemoveTables, Spent;
    NotExited(t, k);
    CycleSpends(t, lim, k);
  }

  /** A tracked namespace without room, whose buffer holds `k` samples at count 0. */
  ghost predicate Crowded(t: Tables, ns: uint32, k: uint32) {
    && WellFormed(t) && !t.exited && !Room(t.gates, ns)
    && View(t, ns) == Track(true, Some(0), if k == 0 then None else Some(k), None)
  }

  /** The 1025th namespace is added without a scaling entry. */
  lemma AddCrowds(t: Tables, n: nat)
    requires n == MAX_ENTRIES && Spent(t, n)
    ensures !AddTables(t, n).exited && Crowded(AddTables(t, n), n, 0)
  {
    AddByMaps(t, n);
  }

  /** Its buffer fills as usual, but the event leaves it armed. */
  lemma CallCrowds(t: Tables, lim: Limits, ns: uint32, k: uint32)
    requires Crowded(t, ns, k) && k < lim.bufferLength
    ensures var (t', side) := ProbeTables(t, lim, ns, false);
      if k + 1 < lim.bufferLength then side == None && Crowded(t', ns, k + 1)
      else side == Some(Lower) && View(t', ns).Armed()
  {
    ProbeEntries(View(t, ns), lim, false, false);
    StoreView(t, ns, Probe(View(t, ns), lim, false, false).0, ns);
    StepMakesNoRoom(t, lim, Call(ns, false), ns);
  }

  /** 1024 namespaces come and go, then another one is added and called in `k` times. */
  lemma {:induction false} CrowdedRun(lim: Limits, n: nat, k: uint32, universe: set<uint32>)
    returns (ops: seq<Op>)
    requires n == MAX_ENTRIES && k < lim.bufferLength && Holds(universe, n + 1)
    ensures Crowded(Run(EMPTY, lim, ops), n, k) && OpsWithin(ops, universe)
  {
    hide Run, Crowded, Cycles, OpsWithin, Spent;
    if k == 0 {
      CyclesSpend(lim, n);
      CyclesWithin(n, universe);
      ops := CrowdedStart(lim, n, Cycles(n), universe);
    } else {
      var before := CrowdedRun(lim, n, k - 1, universe);
      ops := CrowdedStep(lim, n, before, k, universe);
    }
  }

  lemma CrowdedStep(lim: Limits, n: nat, before: seq<Op>, k: uint32, universe: set<uint32>)
    returns (ops: seq<Op>)
    requires n == MAX_ENTRIES && 0 < k < lim.bufferLength
    requires Crowded(Run(EMPTY, lim, before), n, k - 1) && OpsWithin(before, universe)
    ensures Crowded(Run(EMPTY, lim, ops), n, k) && OpsWithin(ops, universe)
  {
    hide Run, Crowded, ProbeTables, OpsWithin;
    CrowdedNotExited(Run(EMPTY, lim, before), n, k - 1);
    CallCrowds(Run(EMPTY, lim, before), lim, n, k - 1);
    RunOne(EMPTY, lim, before, Call(n, false));
    WithinGrows(before, Call(n, false), universe);
    ops := before + [Call(n, false)];
  }

  lemma CrowdedStart(lim: Limits, n: nat, before: seq<Op>, universe: set<uint32>) returns (ops: seq<Op>)
    requires n == MAX_ENTRIES && Spent(Run(EMPTY, lim, before), n)
    requires OpsWithin(before, universe) && n in universe
    ensures Crowded(Run(EMPTY, lim, ops), n, 0) && OpsWithin(ops, universe)
    ensures ops != [] && Last(ops) == Add(n)
  {
    hide Run, Crowded, AddTables, OpsWithin, Spent;
    NotExited(Run(EMPTY, lim, before), n);
    AddCrowds(Run(EMPTY, lim, before), n);
    RunOne(EMPTY, lim, before, Add(n));
    WithinGrows(before, Add(n), universe);
    ops := before + [Add(n)];
  }

  lemma NotExited(t: Tables, n: nat)
    requires Spent(t, n)
    ensures !t.exited
  {
  }

  lemma CrowdedNotExited(t: Tables, ns: uint32, k: uint32)
    requires Crowded(t, ns, k)
    ensures !t.exited
  {
  }

  /** The last step of a run from empty maps raises an event. */
  predicate Fires(lim: Limits, ops: seq<Op>) {
    ops != [] && Last(ops).Call? && Apply(Run(EMPTY, lim, Front(ops)), lim, Last(ops)).1.Some?
  }

  ghost predicate EventsDisarm(lim: Limits, universe: set<uint32>) {
    forall ops: seq<Op> | OpsWithin(ops, universe) && Fires(lim, ops) ::
      !View(Run(EMPTY, lim, ops), Last(ops).ns).Armed()
  }

  lemma EventsDisarmWithRoom(lim: Limits, universe: set<uint32>)
    requires |universe| <= MAX_ENTRIES
    ensures EventsDisarm(lim, universe)
  {
    forall ops: seq<Op> | OpsWithin(ops, universe) && Fires(lim, ops)
      ensures !View(Run(EMPTY, lim, ops), Last(ops).ns).Armed()
    {
      var t, ns := Run(EMPTY, lim, Front(ops)), Last(ops).ns;
      RunIsLocal(EMPTY, lim, Front(ops), universe, ns);
      WithinHasRoom(t, universe, ns);
      EventDisarmsIffRoom(t, lim, ns, Last(ops).established);
    }
  }

  /** A run in which the event of the 1025th namespace leaves it armed. */
  lemma CrowdedEvent(lim: Limits, n: nat, universe: set<uint32>) returns (ops: seq<Op>)
    requires lim.bufferLength >= 1 && n == MAX_ENTRIES && Holds(universe, n + 1)
    ensures OpsWithin(ops, universe) && Fires(lim, ops)
    ensures Last(ops).ns == n && View(Run(EMPTY, lim, ops), n).Armed()
  {
    hide Run, Crowded, ProbeTables, OpsWithin, Holds, View;
    var before := CrowdedRun(lim, n, lim.bufferLength - 1, universe);
    CrowdedNotExited(Run(EMPTY, lim, before), n, lim.bufferLength - 1);
    CallCrowds(Run(EMPTY, lim, before), lim, n, lim.bufferLength - 1);
    ops := before + [Call(n, false)];
    assert Front(ops) == before;
    RunOne(EMPTY, lim, before, Call(n, false));
    WithinGrows(before, Call(n, false), universe);
  }

  /** Exactly: in all runs from empty maps that ever add at most `n` namespaces every event disarms
      its namespace if and only if `n` is at most 1024, whatever was removed in between. */
  lemma EventsDisarmExactly(lim: Limits, n: nat)
    requires lim.bufferLength >= 1
    ensures n <= 1024 <==> forall universe: set<uint32> | |universe| <= n :: EventsDisarm(lim, universe)
  {
    if n <= MAX_ENTRIES {
      forall universe: set<uint32> | |universe| <= n ensures EventsDisarm(lim, universe) {
        EventsDisarmWithRoom(lim, universe);
      }
    } else {
      var m := MAX_ENTRIES;
      var universe := FirstNamespaces(m + 1);
      var ops := CrowdedEvent(lim, m, universe);
      assert !EventsDisarm(lim, universe);
    }
  }

  /** In all runs from empty maps that add namespaces of `universe` only, each namespace's entries are
      those of running only its own steps. */
  ghost predicate Independent(lim: Limits, universe: set<uint32>) {
    forall ops: seq<Op>, ns: uint32 | OpsWithin(ops, universe) ::
      View(Run(EMPTY, lim, ops), ns) == View(Run(EMPTY, lim, Project(ops, ns)), ns)
  }

  lemma IndependentWithRoom(lim: Limits, universe: set<uint32>)
    requires |universe| <= MAX_ENTRIES
    ensures Independent(lim, universe)
  {
    forall ops: seq<Op>, ns: uint32 | OpsWithin(ops, universe)
      ensures View(Run(EMPTY, lim, ops), ns) == View(Run(EMPTY, lim, Project(ops, ns)), ns)
    {
      NamespaceIndependence(EMPTY, lim, ops, universe, ns);
    }
  }

  /** On its own an added namespace gets its scaling entry. */
  lemma AloneGetsGate(lim: Limits, ops: seq<Op>, universe: set<uint32>, ns: uint32)
    requires ops != [] && Last(ops) == Add(ns) && OpsWithin(ops, universe)
    ensures View(Run(EMPTY, lim, Project(ops, ns)), ns).gate == Some(0)
  {
    var own := Project(ops, ns);
    ProjectLast(ops, ns);
    ProjectTwice(ops, ns, universe);
    ProjectOwns(ops, ns);
    RunIsLocal(EMPTY, lim, own, {ns}, ns);
  }

  lemma {:induction false} ProjectOwns(ops: seq<Op>, ns: uint32)
    ensures OpsWithin(Project(ops, ns), {ns})
  {
    if ops != [] { ProjectOwns(Front(ops), ns); }
  }

  /** Exactly: namespaces are independent in all runs from empty maps that ever add at most `n` of
      them if and only if `n` is at most 1024. */
  lemma IndependenceExactly(lim: Limits, n: nat)
    ensures n <= 1024 <==> forall universe: set<uint32> | |universe| <= n :: Independent(lim, universe)
  {
    if n <= MAX_ENTRIES {
      forall universe: set<uint32> | |universe| <= n ensures Independent(lim, universe) {
        IndependentWithRoom(lim, universe);
      }
    } else {
      var m := MAX_ENTRIES;
      var universe := FirstNamespaces(m + 1);
      var ops := DependentRun(lim, m, universe);
      assert !Independent(lim, universe);
    }
  }

  lemma DependentRun(lim: Limits, n: nat, universe: set<uint32>) returns (ops: seq<Op>)
    requires n == MAX_ENTRIES && Holds(universe, n + 1)
    ensures OpsWithin(ops, universe)
    ensures View(Run(EMPTY, lim, ops), n) != View(Run(EMPTY, lim, Project(ops, n)), n)
  {
    assert n in universe && Holds(universe, n);
    hide Run, Cycles, OpsWithin, Spent, Holds;
    CyclesSpend(lim, n);
    CyclesWithin(n, universe);
    ops := CrowdedStart(lim, n, Cycles(n), universe);
    AloneGetsGate(lim, ops, universe, n);
  }

  // ----- a namespace from its addition on -----

  /** Adding a namespace whose buffer is empty starts an armed period at count 0;
      re-arming after an event starts one at the current count. */
  lemma PeriodsStart(v: Track, lim: Limits, established: bool)
    ensures v.Buffered() == 0 ==> PeriodStart(Added(v, true)) && Added(v, true).count == Some(0)
    ensures v.valid && v.count.Some? && Probe(v, lim, established, true).1.Some? ==>
      PeriodStart(Rearmed(Probe(v, lim, established, true).0, true))
  {
    var w := Probe(v, lim, established, true).0;
    if v.valid && v.count.Some? && Probe(v, lim, established, true).1.Some? {
      assert w.buffer == Some(0) && w.valid && w.count.Some?;
    }
  }

  /** Removing a namespace that was added without a buffer entry succeeds exactly when it was
      sampled at least once; otherwise the namespace stays valid, without a counter. */
  lemma {:induction false} RemovalNeedsASample(v: Track, lim: Limits, calls: seq<bool>)
    requires v.buffer.None?
    ensures var (w, ok) := Removed(After(Added(v, true), lim, calls));
      && (ok <==> calls != [])
      && (if ok then w == Track(false, None, None, w.gate) else w == Track(true, None, None, Some(0)))
  {
    if calls != [] {
      SampledHasEntries(Added(v, true), lim, calls);
    }
  }

  lemma {:induction false} SampledHasEntries(v: Track, lim: Limits, calls: seq<bool>)
    requires v.Armed() && v.count.Some? && calls != []
    ensures var w := After(v, lim, calls); w.valid && w.count.Some? && w.buffer.Some?
  {
    if |calls| > 1 {
      SampledHasEntries(v, lim, Front(calls));
    } else {
      assert Front(calls) == [];
    }
  }

  // ----- a namespace through many armed periods -----

  /** Calls and re-armings, at any time, in any order. */
  ghost predicate CallsAndRearms(ops: seq<Op>) {
    forall i | 0 <= i < |ops| :: ops[i].Call? || ops[i].Rearm?
  }

  function CallsOf(ops: seq<Op>): seq<bool> {
    if ops == [] then []
    else CallsOf(Front(ops)) + if Last(ops).Call? then [Last(ops).established] else []
  }

  lemma CallsStep(ops: seq<Op>)
    requires ops != []
    ensures Last(ops).Call? ==>
      CallsOf(ops) != [] && Front(CallsOf(ops)) == CallsOf(Front(ops)) && Last(CallsOf(ops)) == Last(ops).established
    ensures !Last(ops).Call? ==> CallsOf(ops) == CallsOf(Front(ops))
  {
  }

  /** Through any number of periods the counter counts every call, armed or not, and the buffer
      never exceeds the run of out-of-band samples the calls end in. */
  lemma {:induction false} BufferInRun(v: Track, lim: Limits, ops: seq<Op>)
    requires v.valid && v.count.Some? && v.Buffered() == 0 && lim.bufferLength >= 1 && CallsAndRearms(ops)
    ensures var w, calls := RunLocal(v, lim, ops), CallsOf(ops);
      && w.valid && w.count == Some(Counter(v.count.value, calls))
      && w.Buffered() < lim.bufferLength && OutsideFor(v, lim, calls, w.Buffered())
      && (w.gate == Some(1) ==> w.Buffered() == 0)
  {
    if ops != [] {
      BufferInRun(v, lim, Front(ops));
      CallsStep(ops);
      var w, calls := RunLocal(v, lim, Front(ops)), CallsOf(ops);
      if Last(ops).Call? {
        ProbeEntries(w, lim, Last(ops).established, true);
        if lim.Outside(Counted(w.count.value, Last(ops).established)) {
          OutsideStep(v, lim, calls, w.Buffered());
        }
      }
    }
  }

  // ----- one-sided events through additions, removals and re-armings -----

  /** A namespace without any entry. */
  const UNSEEN: Track := Track(false, None, None, None)

  /** The samples a run takes of the namespace: one for every call while it is valid. */
  function Samples(v: Track, lim: Limits, ops: seq<Op>): seq<uint32> {
    if ops == [] then []
    else
      var w, before := RunLocal(v, lim, Front(ops)), Samples(v, lim, Front(ops));
      if Last(ops).Call? && w.valid then before + [Counted(w.count.GetOr(0), Last(ops).established)] else before
  }

  /** The step takes the counter to 0: an addition, or an ESTABLISHED call that wraps it. */
  predicate Resets(w: Track, op: Op) {
    op.Add? || (op.Call? && op.established && w.valid && w.count == Some(TWO_TO_THE_32 - 1))
  }

  /** A reset here leaves no streak of high samples in the buffer. */
  predicate CleanReset(w: Track, lim: Limits, ss: seq<uint32>) {
    w.Buffered() == 0 || (ss != [] && Last(ss) <= lim.lower)
  }

  predicate CleanResets(v: Track, lim: Limits, ops: seq<Op>) {
    ops == [] ||
    (CleanResets(v, lim, Front(ops)) &&
     (Resets(RunLocal(v, lim, Front(ops)), Last(ops)) ==>
       CleanReset(RunLocal(v, lim, Front(ops)), lim, Samples(v, lim, Front(ops)))))
  }

  /** The last `k` samples are on `side`. */
  ghost predicate AllOn(lim: Limits, ss: seq<uint32>, k: nat, side: Side) {
    k <= |ss| && forall i | |ss| - k <= i < |ss| :: lim.OnSide(ss[i], side)
  }

  /** If the last step raises an event, the last `bufferLength` samples are on the event's side. */
  ghost predicate EventOneSided(v: Track, lim: Limits, ops: seq<Op>) {
    ops != [] ==>
      var event := ApplyLocal(RunLocal(v, lim, Front(ops)), lim, Last(ops)).1;
      event.Some? ==> AllOn(lim, Samples(v, lim, ops), lim.bufferLength, event.value)
  }

  /** The buffer counts samples that are all on the side of the last one, and the counter is where
      that sample left it, unless it was reset under a streak of low samples. */
  ghost predicate BufferOneSided(w: Track, lim: Limits, ss: seq<uint32>) {
    && w.Buffered() < lim.bufferLength && w.Buffered() <= |ss|
    && (w.gate == Some(1) ==> w.Buffered() == 0)
    && (w.Buffered() > 0 ==>
      && AllOn(lim, ss, w.Buffered(), lim.SideOf(Last(ss)))
      && w.count.Some? && (w.count.value == Last(ss) || (w.count.value == 0 && Last(ss) <= lim.lower)))
  }

  /** A step of 1 from an out-of-band sample does not jump the band. */
  lemma SideStays(lim: Limits, last: uint32, count: uint32, established: bool)
    requires lim.upper >= lim.lower + 2 && lim.Outside(last) && (established ==> count < TWO_TO_THE_32 - 1)
    requires count == last || (count == 0 && last <= lim.lower)
    requires lim.Outside(Counted(count, established))
    ensures lim.SideOf(Counted(count, established)) == lim.SideOf(last)
  {
  }

  lemma AllOnStep(lim: Limits, ss: seq<uint32>, k: nat, side: Side, sample: uint32)
    requires AllOn(lim, ss, k, side) && lim.OnSide(sample, side)
    ensures AllOn(lim, ss + [sample], k + 1, side)
  {
  }

  /** One call of a valid namespace whose buffer is one-sided. */
  lemma CallKeepsOneSided(w: Track, lim: Limits, ss: seq<uint32>, established: bool)
    requires lim.bufferLength >= 1 && SeparatesSides(lim) && w.valid && BufferOneSided(w, lim, ss)
    requires established && w.count == Some(TWO_TO_THE_32 - 1) ==> CleanReset(w, lim, ss)
    ensures var (w', event) := Probe(w, lim, established, true);
      var ss' := ss + [Counted(w.count.GetOr(0), established)];
      && BufferOneSided(w', lim, ss')
      && (event.Some? ==> AllOn(lim, ss', lim.bufferLength, event.value))
  {
    var sample := Counted(w.count.GetOr(0), established);
    ProbeEntries(w, lim, established, true);
    if w.gate != Some(1) && lim.Outside(sample) {
      if w.Buffered() > 0 {
        assert lim.OnSide(ss[|ss| - 1], lim.SideOf(Last(ss)));
        if lim.upper >= lim.lower + 2 && !(established && w.count.value == TWO_TO_THE_32 - 1) {
          SideStays(lim, Last(ss), w.count.value, established);
        }
      }
      assert AllOn(lim, ss, w.Buffered(), lim.SideOf(sample));
      AllOnStep(lim, ss, w.Buffered(), lim.SideOf(sample), sample);
    }
  }

  lemma {:induction false} RunKeepsOneSided(v: Track, lim: Limits, ops: seq<Op>)
    requires v.Buffered() == 0 && lim.bufferLength >= 1 && SeparatesSides(lim)
    requires CleanResets(v, lim, ops)
    ensures BufferOneSided(RunLocal(v, lim, ops), lim, Samples(v, lim, ops))
    ensures EventOneSided(v, lim, ops)
  {
    if ops != [] {
      RunKeepsOneSided(v, lim, Front(ops));
      var w, ss := RunLocal(v, lim, Front(ops)), Samples(v, lim, Front(ops));
      if Last(ops).Call? && w.valid {
        CallKeepsOneSided(w, lim, ss, Last(ops).established);
      }
    }
  }

  /** Every event is one-sided: through any mix of calls, re-armings, removals and clean resets, when
      a call raises an event the last `bufferLength` samples are on the event's side. */
  lemma EveryEventIsOneSided(v: Track, lim: Limits, ops: seq<Op>)
    requires v.Buffered() == 0 && lim.bufferLength >= 1 && SeparatesSides(lim)
    requires CleanResets(v, lim, ops)
    ensures EventOneSided(v, lim, ops)
  {
    RunKeepsOneSided(v, lim, ops);
  }

  // ----- exactly which resets -----

  /** A run of calls on one namespace; the local steps do not look at its number. */
  function AsOps(calls: seq<bool>): seq<Op> {
    if calls == [] then [] else AsOps(Front(calls)) + [Call(0, Last(calls))]
  }

  function CallSamples(c: uint32, calls: seq<bool>): seq<uint32> {
    if calls == [] then [] else CallSamples(c, Front(calls)) + [Counter(c, calls)]
  }

  lemma {:induction false} CallSampleAt(c: uint32, calls: seq<bool>, n: nat)
    requires n < |calls|
    ensures |CallSamples(c, calls)| == |calls| && CallSamples(c, calls)[n] == Counter(c, calls[..n + 1])
  {
    assert calls[..|calls|] == calls;
    if |calls| > 1 {
      assert Front(calls)[..if n < |calls| - 1 then n + 1 else 0] == calls[..if n < |calls| - 1 then n + 1 else 0];
      CallSampleAt(c, Front(calls), if n < |calls| - 1 then n else 0);
    }
  }

  /** Calls after a run are a period of the trigger from where the run ended. */
  lemma {:induction false} RunThenCalls(v: Track, lim: Limits, ops: seq<Op>, calls: seq<bool>)
    requires RunLocal(v, lim, ops).valid && RunLocal(v, lim, ops).count.Some?
    ensures var w, all := RunLocal(v, lim, ops), ops + AsOps(calls);
      && RunLocal(v, lim, all) == After(w, lim, calls)
      && Samples(v, lim, all) == Samples(v, lim, ops) + CallSamples(w.count.value, calls)
      && (NoWrap(w.count.value, calls) ==> CleanResets(v, lim, all) == CleanResets(v, lim, ops))
  {
    var w, all := RunLocal(v, lim, ops), ops + AsOps(calls);
    if calls == [] {
      assert all == ops;
    } else {
      RunThenCalls(v, lim, ops, Front(calls));
      assert Front(all) == ops + AsOps(Front(calls)) && Last(all) == Call(0, Last(calls));
      AfterCounts(w, lim, Front(calls));
      if NoWrap(w.count.value, calls) { NoWrapFront(w.count.value, calls); }
    }
  }

  /** Decrements of a counter at 0 fill the buffer with zeros. */
  lemma {:induction false} ZerosFill(w: Track, lim: Limits, k: nat)
    requires w.Armed() && w.count == Some(0) && w.Buffered() + k < lim.bufferLength
    ensures var u := After(w, lim, seq(k, _ => false));
      u.Armed() && u.count == Some(0) && u.Buffered() == w.Buffered() + k && Counter(0, seq(k, _ => false)) == 0
  {
    var calls := seq(k, _ => false);
    if k > 0 {
      ZerosFill(w, lim, k - 1);
      assert Front(calls) == seq(k - 1, _ => false);
    }
  }

  /** The calls after which a reset that is not clean raises a "Lower" event whose window began above
      the limits: the counter stays at 0 until the buffer is full. */
  function Drained(lim: Limits, buffered: uint32): seq<bool>
    requires buffered < lim.bufferLength
  {
    seq(lim.bufferLength - buffered, _ => false)
  }

  /** No step of `tail` resets the counter, after the steps `ops`. */
  predicate ResetFree(v: Track, lim: Limits, ops: seq<Op>, tail: seq<Op>) {
    tail == [] ||
    (ResetFree(v, lim, ops, Front(tail)) && !Resets(RunLocal(v, lim, ops + Front(tail)), Last(tail)))
  }

  /** All events to come before the next reset are one-sided, the last step's included. */
  ghost predicate StaysOneSided(v: Track, lim: Limits, ops: seq<Op>) {
    forall tail: seq<Op> | ResetFree(v, lim, ops, tail) :: EventOneSided(v, lim, ops + tail)
  }

  lemma {:induction false} DecrementsAreResetFree(v: Track, lim: Limits, ops: seq<Op>, k: nat)
    ensures ResetFree(v, lim, ops, AsOps(seq(k, _ => false)))
  {
    if k > 0 {
      DecrementsAreResetFree(v, lim, ops, k - 1);
      assert Front(seq(k, _ => false)) == seq(k - 1, _ => false);
    }
  }

  lemma {:induction false} ResetFreeStaysClean(v: Track, lim: Limits, ops: seq<Op>, tail: seq<Op>)
    requires CleanResets(v, lim, ops) && ResetFree(v, lim, ops, tail)
    ensures CleanResets(v, lim, ops + tail)
  {
    if tail == [] {
      assert ops + tail == ops;
    } else {
      ResetFreeStaysClean(v, lim, ops, Front(tail));
      assert Front(ops + tail) == ops + Front(tail);
    }
  }

  lemma CleanStaysOneSided(v: Track, lim: Limits, ops: seq<Op>)
    requires v.Buffered() == 0 && lim.bufferLength >= 1 && SeparatesSides(lim) && CleanResets(v, lim, ops)
    ensures StaysOneSided(v, lim, ops)
  {
    forall tail: seq<Op> | ResetFree(v, lim, ops, tail) ensures EventOneSided(v, lim, ops + tail) {
      ResetFreeStaysClean(v, lim, ops, tail);
      EveryEventIsOneSided(v, lim, ops + tail);
    }
  }

  /** A buffer that is not clean for a reset is a streak of high samples. */
  lemma UncleanIsHigh(w: Track, lim: Limits, ss: seq<uint32>)
    requires SeparatesSides(lim) && BufferOneSided(w, lim, ss) && !CleanReset(w, lim, ss)
    ensures 0 < w.Buffered() < lim.bufferLength && w.Buffered() <= |ss| && ss[|ss| - w.Buffered()] > lim.lower
    ensures w.gate != Some(1)
  {
    assert lim.OnSide(ss[|ss| - w.Buffered()], lim.SideOf(Last(ss)));
  }

  /** A wrap under such a streak adds a low sample to it. */
  lemma WrapUnderStreak(w: Track, lim: Limits)
    requires w.valid && w.gate != Some(1) && w.count == Some(TWO_TO_THE_32 - 1) && w.Buffered() < lim.bufferLength
    ensures var (u, event) := Probe(w, lim, true, true);
      if w.Buffered() + 1 == lim.bufferLength then event == Some(Lower)
      else u == Track(true, Some(0), Some(w.Buffered() + 1), w.gate)
  {
    ProbeEntries(w, lim, true, true);
  }

  /** A tracked namespace at count 0 whose buffer begins with a high sample. */
  ghost predicate HighUnderZero(lim: Limits, u: Track, ss: seq<uint32>) {
    && u.Armed() && u.count == Some(0) && 0 < u.Buffered() < lim.bufferLength
    && u.Buffered() <= |ss| && ss[|ss| - u.Buffered()] > lim.lower
  }

  lemma AddUnderStreak(v: Track, lim: Limits, ops: seq<Op>)
    requires ops != [] && Last(ops).Add? && SeparatesSides(lim)
    requires var w, ss := RunLocal(v, lim, Front(ops)), Samples(v, lim, Front(ops));
      BufferOneSided(w, lim, ss) && !CleanReset(w, lim, ss)
    ensures HighUnderZero(lim, RunLocal(v, lim, ops), Samples(v, lim, ops))
  {
    UncleanIsHigh(RunLocal(v, lim, Front(ops)), lim, Samples(v, lim, Front(ops)));
  }

  /** After a wrapping call under a streak of high samples the streak is in the buffer still or, if
      the buffer was about to fill, a "Lower" event has just been raised. */
  lemma CallUnderStreak(v: Track, lim: Limits, ops: seq<Op>)
    requires ops != [] && Last(ops).Call? && SeparatesSides(lim)
    requires var w, ss := RunLocal(v, lim, Front(ops)), Samples(v, lim, Front(ops));
      BufferOneSided(w, lim, ss) && Resets(w, Last(ops)) && !CleanReset(w, lim, ss)
    ensures !EventOneSided(v, lim, ops) || HighUnderZero(lim, RunLocal(v, lim, ops), Samples(v, lim, ops))
  {
    var w, ss, ss' := RunLocal(v, lim, Front(ops)), Samples(v, lim, Front(ops)), Samples(v, lim, ops);
    UncleanIsHigh(w, lim, ss);
    WrapUnderStreak(w, lim);
    assert ss' == ss + [0] && ss'[|ss| - w.Buffered()] == ss[|ss| - w.Buffered()];
    hide Probe, BufferOneSided, SeparatesSides;
    if w.Buffered() + 1 == lim.bufferLength {
      assert !lim.OnSide(ss'[|ss'| - lim.bufferLength], Lower);
    }
  }

  /** From there, calls that keep the counter at 0 fill the buffer. */
  lemma DrainFires(u: Track, lim: Limits)
    requires u.Armed() && u.count == Some(0) && u.Buffered() < lim.bufferLength
    ensures var calls := Drained(lim, u.Buffered());
      && calls != [] && |calls| + u.Buffered() == lim.bufferLength
      && Emitted(u, lim, calls) == Some(Lower)
  {
    var calls := Drained(lim, u.Buffered());
    ZerosFill(u, lim, |calls| - 1);
    assert Front(calls) == seq(|calls| - 1, _ => false);
    ProbeEntries(After(u, lim, Front(calls)), lim, false, true);
  }

  /** The event raised by the last call of a run. */
  lemma EventAfterCalls(v: Track, lim: Limits, ops: seq<Op>, calls: seq<bool>)
    requires RunLocal(v, lim, ops).valid && RunLocal(v, lim, ops).count.Some? && calls != []
    ensures var all := ops + AsOps(calls);
      && all != []
      && ApplyLocal(RunLocal(v, lim, Front(all)), lim, Last(all)).1 == Emitted(RunLocal(v, lim, ops), lim, calls)
  {
    var all := ops + AsOps(calls);
    RunThenCalls(v, lim, ops, Front(calls));
    assert Front(all) == ops + AsOps(Front(calls)) && Last(all) == Call(0, Last(calls));
  }

  lemma DrainingMixes(v: Track, lim: Limits, ops: seq<Op>)
    requires HighUnderZero(lim, RunLocal(v, lim, ops), Samples(v, lim, ops))
    ensures !EventOneSided(v, lim, ops + AsOps(Drained(lim, RunLocal(v, lim, ops).Buffered())))
  {
    var u := RunLocal(v, lim, ops);
    hide RunLocal, Samples, EventOneSided, AsOps, Emitted;
    DrainFires(u, lim);
    CallsMix(v, lim, ops, Drained(lim, u.Buffered()), u.Buffered());
  }

  /** A "Lower" event of a period whose buffer began with a high sample. */
  lemma CallsMix(v: Track, lim: Limits, ops: seq<Op>, calls: seq<bool>, buffered: uint32)
    requires RunLocal(v, lim, ops).valid && RunLocal(v, lim, ops).count.Some? && calls != []
    requires 0 < buffered <= |Samples(v, lim, ops)| && |calls| + buffered == lim.bufferLength
    requires Samples(v, lim, ops)[|Samples(v, lim, ops)| - buffered] > lim.lower
    requires Emitted(RunLocal(v, lim, ops), lim, calls) == Some(Lower)
    ensures !EventOneSided(v, lim, ops + AsOps(calls))
  {
    hide RunLocal, Samples, CallSamples, AsOps, Emitted, ApplyLocal, AllOn;
    var c := RunLocal(v, lim, ops).count.value;
    EventAfterCalls(v, lim, ops, calls);
    RunThenCalls(v, lim, ops, calls);
    CallSampleAt(c, calls, 0);
    HighInWindow(lim, Samples(v, lim, ops), CallSamples(c, calls), buffered);
  }

  /** A high sample at the start of the window. */
  lemma HighInWindow(lim: Limits, ss: seq<uint32>, more: seq<uint32>, buffered: uint32)
    requires 0 < buffered <= |ss| && |more| + buffered == lim.bufferLength && ss[|ss| - buffered] > lim.lower
    ensures !AllOn(lim, ss + more, lim.bufferLength, Lower)
  {
    var all := ss + more;
    assert all[|all| - lim.bufferLength] == ss[|ss| - buffered];
    assert !lim.OnSide(all[|all| - lim.bufferLength], Lower);
  }

  lemma UncleanResetMixes(v: Track, lim: Limits, ops: seq<Op>)
    requires ops != [] && lim.bufferLength >= 1 && SeparatesSides(lim)
    requires var w, ss := RunLocal(v, lim, Front(ops)), Samples(v, lim, Front(ops));
      BufferOneSided(w, lim, ss) && Resets(w, Last(ops)) && !CleanReset(w, lim, ss)
    ensures !StaysOneSided(v, lim, ops)
  {
    if Last(ops).Add? { AddUnderStreak(v, lim, ops); } else { CallUnderStreak(v, lim, ops); }
    assert ops + [] == ops && ResetFree(v, lim, ops, []);
    if EventOneSided(v, lim, ops) {
      DrainingMixes(v, lim, ops);
      DecrementsAreResetFree(v, lim, ops, lim.bufferLength - RunLocal(v, lim, ops).Buffered());
    }
  }

  /** Exactly: at every point of a run all events of all continuations without a further reset are
      one-sided if and only if every reset of the run is clean. */
  lemma {:induction false} ResetsOneSidedExactly(v: Track, lim: Limits, ops: seq<Op>)
    requires v.Buffered() == 0 && lim.bufferLength >= 1 && SeparatesSides(lim)
    ensures CleanResets(v, lim, ops) <==> forall k | 0 <= k <= |ops| :: StaysOneSided(v, lim, ops[..k])
  {
    assert ops[..|ops|] == ops;
    if CleanResets(v, lim, ops) {
      forall k | 0 <= k <= |ops| ensures StaysOneSided(v, lim, ops[..k]) {
        CleanPrefix(v, lim, ops, k);
        CleanStaysOneSided(v, lim, ops[..k]);
      }
    } else {
      ResetsOneSidedExactly(v, lim, Front(ops));
      if CleanResets(v, lim, Front(ops)) {
        RunKeepsOneSided(v, lim, Front(ops));
        UncleanResetMixes(v, lim, ops);
      } else {
        var k :| 0 <= k <= |Front(ops)| && !StaysOneSided(v, lim, Front(ops)[..k]);
        assert Front(ops)[..k] == ops[..k];
      }
    }
  }

  lemma {:induction false} CleanPrefix(v: Track, lim: Limits, ops: seq<Op>, k: nat)
    requires CleanResets(v, lim, ops) && k <= |ops|
    ensures CleanResets(v, lim, ops[..k])
  {
    if k < |ops| {
      CleanPrefix(v, lim, Front(ops), k);
      assert Front(ops)[..k] == ops[..k];
    } else {
      assert ops[..k] == ops;
    }
  }

  lemma ThreeUp()
    ensures var lim, calls := Limits(1, 3, 2), [true, true, true];
      && After(FRESH, lim, calls) == Track(true, Some(3), Some(1), Some(0))
      && CallSamples(0, calls) == [1, 2, 3] && NoWrap(0, calls)
  {
    var lim, calls := Limits(1, 3, 2), [true, true, true];
    assert Front(calls) == [true, true] && Front([true, true]) == [true] && Front([true]) == [];
    assert After(FRESH, lim, [true]) == Track(true, Some(1), Some(1), Some(0));
    assert After(FRESH, lim, [true, true]) == Track(true, Some(2), Some(0), Some(0));
    assert calls[..0] == [] && calls[..1] == [true] && calls[..2] == [true, true];
  }

  lemma StreakAtThree()
    ensures var lim, ops := Limits(1, 3, 2), [Add(0)] + AsOps([true, true, true]);
      && RunLocal(UNSEEN, lim, ops) == Track(true, Some(3), Some(1), Some(0)) && Samples(UNSEEN, lim, ops) == [1, 2, 3]
      && CleanResets(UNSEEN, lim, ops)
  {
    var lim, first := Limits(1, 3, 2), [Add(0)];
    assert Front(first) == [];
    ThreeUp();
    RunThenCalls(UNSEEN, lim, first, [true, true, true]);
  }

  /** Concretely: with a band from 2 to 2, two samples to the buffer and the counter at 3, an addition
      followed by one decrement raises a "Lower" event for the samples 3 and 0. */
  lemma AdditionMidStreak()
    ensures var lim, ops := Limits(1, 3, 2), [Add(0)] + AsOps([true, true, true]) + [Add(0)];
      && SeparatesSides(lim) && !CleanResets(UNSEEN, lim, ops)
      && !EventOneSided(UNSEEN, lim, ops + AsOps([false]))
  {
    var lim, before := Limits(1, 3, 2), [Add(0)] + AsOps([true, true, true]);
    var ops := before + [Add(0)];
    assert Front(ops) == before;
    hide AsOps, EventOneSided;
    StreakAtThree();
    assert RunLocal(UNSEEN, lim, ops) == Track(true, Some(0), Some(1), Some(0));
    assert Samples(UNSEEN, lim, ops) == [1, 2, 3];
    DrainingMixes(UNSEEN, lim, ops);
    assert Drained(lim, 1) == [false];
  }

  // ----- exactly which limits -----

  /** A disarmed namespace only counts. */
  lemma {:induction false} DisarmedCounts(w: Track, lim: Limits, n: uint32)
    requires w.valid && w.gate == Some(1) && w.count == Some(0)
    ensures After(w, lim, seq(n, _ => true)) == w.(count := Some(n))
  {
    if n > 0 {
      DisarmedCounts(w, lim, n - 1);
      assert Front(seq(n, _ => true)) == seq(n - 1, _ => true);
    }
  }

  lemma {:induction false} RisesWithoutWrap(n: uint32)
    ensures NoWrap(0, seq(n, _ => true)) && Counter(0, seq(n, _ => true)) == n
  {
    var calls := seq(n, _ => true);
    if n > 0 {
      RisesWithoutWrap(n - 1);
      assert Front(calls) == seq(n - 1, _ => true);
      forall k | 0 <= k < n ensures Counter(0, calls[..k]) < TWO_TO_THE_32 - 1 {
        if k < n - 1 {
          assert calls[..k] == Front(calls)[..k] && Front(calls)[k];
        } else {
          assert calls[..k] == Front(calls);
        }
      }
    }
  }

  /** From its addition on, a namespace can come to an armed period that starts at the lower limit:
      a first event disarms it, it is counted up, and it is re-armed. */
  function ToLowerLimit(lim: Limits): seq<Op> {
    [Add(0)] + AsOps(seq(lim.bufferLength, _ => false)) + AsOps(seq(lim.lower, _ => true)) + [Rearm(0)]
  }

  lemma ReachesLowerLimit(lim: Limits)
    requires lim.bufferLength >= 1
    ensures var w := RunLocal(UNSEEN, lim, ToLowerLimit(lim)); PeriodStart(w) && w.count == Some(lim.lower)
    ensures CleanResets(UNSEEN, lim, ToLowerLimit(lim))
  {
    var first, zeros := [Add(0)], seq(lim.bufferLength, _ => false);
    assert Front(first) == [];
    assert RunLocal(UNSEEN, lim, first) == FRESH && CleanResets(UNSEEN, lim, first);
    ZerosFill(FRESH, lim, lim.bufferLength - 1);
    assert Front(zeros) == seq(lim.bufferLength - 1, _ => false);
    var w := After(FRESH, lim, zeros);
    assert w == Track(true, Some(0), Some(0), Some(1));
    RunThenCalls(UNSEEN, lim, first, zeros);
    DisarmedCounts(w, lim, lim.lower);
    RisesWithoutWrap(lim.lower);
    RunThenCalls(UNSEEN, lim, first + AsOps(zeros), seq(lim.lower, _ => true));
    assert Front(ToLowerLimit(lim)) == first + AsOps(zeros) + AsOps(seq(lim.lower, _ => true));
  }

  /** A first event of a later period whose window is mixed is a mixed event of the whole run. */
  lemma MixedAfterRun(v: Track, lim: Limits, ops: seq<Op>, calls: seq<bool>)
    requires RunLocal(v, lim, ops).valid && RunLocal(v, lim, ops).count.Some? && calls != []
    requires var w := RunLocal(v, lim, ops);
      && 1 <= lim.bufferLength == |calls| && Emitted(w, lim, calls) == Some(Lower)
      && Sample(w, calls, 1) > lim.lower
    ensures !EventOneSided(v, lim, ops + AsOps(calls))
  {
    var w, all := RunLocal(v, lim, ops), ops + AsOps(calls);
    RunThenCalls(v, lim, ops, calls);
    RunThenCalls(v, lim, ops, Front(calls));
    assert Front(all) == ops + AsOps(Front(calls)) && Last(all) == Call(0, Last(calls));
    var ss := Samples(v, lim, all);
    CallSampleAt(w.count.value, calls, 0);
    assert ss[|ss| - lim.bufferLength] == Sample(w, calls, 1);
    assert !lim.OnSide(ss[|ss| - lim.bufferLength], Lower);
  }

  /** With other limits a clean run from the very beginning ends in a "Lower" event whose window
      began above the lower limit. */
  lemma MixedRun(lim: Limits)
    requires lim.bufferLength >= 1 && !SeparatesSides(lim)
    ensures var ops := ToLowerLimit(lim) + AsOps(Crossing(lim));
      && CleanResets(UNSEEN, lim, ops) && !EventOneSided(UNSEEN, lim, ops)
  {
    var ops, calls := ToLowerLimit(lim), Crossing(lim);
    ReachesLowerLimit(lim);
    MixedWindow(RunLocal(UNSEEN, lim, ops), lim);
    CrossingSamples(RunLocal(UNSEEN, lim, ops), lim, 1);
    RunThenCalls(UNSEEN, lim, ops, calls);
    MixedAfterRun(UNSEEN, lim, ops, calls);
  }

  /** Exactly: in all clean runs from the very beginning every event is one-sided if and only if the
      limits separate the sides. */
  lemma LimitsOneSidedExactly(lim: Limits)
    requires lim.bufferLength >= 1
    ensures SeparatesSides(lim) <==>
      forall ops: seq<Op> | CleanResets(UNSEEN, lim, ops) :: EventOneSided(UNSEEN, lim, ops)
  {
    if SeparatesSides(lim) {
      forall ops: seq<Op> | CleanResets(UNSEEN, lim, ops) ensures EventOneSided(UNSEEN, lim, ops) {
        EveryEventIsOneSided(UNSEEN, lim, ops);
      }
    } else {
      MixedRun(lim);
    }
  }
}
