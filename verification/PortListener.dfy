/** The port table of one node: the Go map from ports to services, the BPF map the classifier
    consults and the in-memory listener log (autoscaler/bpf_port_listen/listener.go). */
module PortListener {
  import opened Prelude
  import opened Bytes

  const MAX_PORTS: nat := 256

  /** `bpf` is the key set of ports_map, whose values are never read. */
  datatype Ports = Ports(services: map<uint32, string>, bpf: set<uint32>, log: map<uint32, string>)

  const NO_PORTS: Ports := Ports(map[], {}, map[])

  /** The Go map is written first, so a refused BPF update leaves the port mapped but not armed. */
  function Listen(p: Ports, port: uint32, serviceID: string): (Ports, bool) {
    var services := p.services[port := serviceID];
    if port in p.bpf || |p.bpf| < MAX_PORTS then
      (Ports(services, p.bpf + {port}, p.log[port := serviceID]), true)
    else
      (p.(services := services), false)
  }

  function Remove(p: Ports, port: uint32): (Ports, bool) {
    if port !in p.services then (p, false)
    else if port !in p.bpf then (p.(services := p.services - {port}), false)
    else (Ports(p.services - {port}, p.bpf - {port}, p.log - {port}), true)
  }

  datatype Wake = Wake(port: uint32, serviceID: string)

  /** The wake a perf record triggers, if its port is still mapped. */
  function WakeOf(p: Ports, raw: seq<uint8>): Option<Wake> {
    if |raw| < 4 then None
    else
      var port := LittleEndianUint32(raw);
      if port in p.services then Some(Wake(port, p.services[port])) else None
  }

  class BpfPortListener {
    var portToServiceID: map<uint32, string>
    var portsMap: map<uint32, uint32>
    var bpfListenerLogs: map<uint32, string>

    ghost function State(): Ports
      reads this
    {
      Ports(portToServiceID, portsMap.Keys, bpfListenerLogs)
    }

    constructor ()
      ensures State() == NO_PORTS
    {
      portToServiceID, portsMap, bpfListenerLogs := map[], map[], map[];
    }

    method ListenOnPort(port: uint32, serviceID: string) returns (ok: bool)
      modifies this
      ensures (State(), ok) == Listen(old(State()), port, serviceID)
    {
      portToServiceID := portToServiceID[port := serviceID];
      assert |portsMap.Keys| == |portsMap|;
      if !(port in portsMap || |portsMap| < MAX_PORTS) {
        return false;
      }
      portsMap := portsMap[port := 1];
      bpfListenerLogs := bpfListenerLogs[port := serviceID];
      assert portsMap.Keys == old(portsMap.Keys) + {port};
      return true;
    }

    method RemovePort(port: uint32) returns (ok: bool)
      modifies this
      ensures (State(), ok) == Remove(old(State()), port)
    {
      if port !in portToServiceID {
        return false;
      }
      portToServiceID := portToServiceID - {port};
      if port !in portsMap {
        return false;
      }
      portsMap := portsMap - {port};
      bpfListenerLogs := bpfListenerLogs - {port};
      return true;
    }

    /** The first half of one iteration of the event loop: what the record wakes, and the local removal. */
    method HandleRecord(raw: seq<uint8>) returns (wake: Option<Wake>)
      modifies this
      ensures wake == WakeOf(old(State()), raw)
      ensures State() == if wake.Some? then Remove(old(State()), wake.value.port).0 else old(State())
    {
      if |raw| < 4 {
        return None;
      }
      var port := LittleEndianUint32(raw);
      if port !in portToServiceID {
        return None;
      }
      wake := Some(Wake(port, portToServiceID[port]));
      var _ := RemovePort(port);
    }
  }

  // ----- histories -----

  datatype Op =
    | ListenOp(port: uint32, serviceID: string)
    | RemoveOp(port: uint32)
    | RecordOp(raw: seq<uint8>)

  function Apply(p: Ports, op: Op): Ports {
    match op
    case ListenOp(port, serviceID) => Listen(p, port, serviceID).0
    case RemoveOp(port) => Remove(p, port).0
    case RecordOp(raw) => var w := WakeOf(p, raw); if w.Some? then Remove(p, w.value.port).0 else p
  }

  function Run(ops: seq<Op>): Ports {
    if ops == [] then NO_PORTS else Apply(Run(Front(ops)), Last(ops))
  }

  /** The classifier's map and the log follow the Go map. */
  ghost predicate Agree(p: Ports) {
    && p.bpf <= p.services.Keys && |p.bpf| <= MAX_PORTS
    && p.log == map port | port in p.bpf :: p.services[port]
  }

  lemma ListenKeepsAgree(p: Ports, port: uint32, serviceID: string)
    requires Agree(p)
    ensures Agree(Listen(p, port, serviceID).0)
  {
    var p' := Listen(p, port, serviceID).0;
    assert |p.bpf + {port}| == |p.bpf| + if port in p.bpf then 0 else 1;
    assert p'.log == map q | q in p'.bpf :: p'.services[q];
  }

  lemma RemoveKeepsAgree(p: Ports, port: uint32)
    requires Agree(p)
    ensures Agree(Remove(p, port).0)
  {
    var p' := Remove(p, port).0;
    SubsetSize(p'.bpf, p.bpf);
    assert p'.bpf <= p'.services.Keys;
    assert p'.log == map q | q in p'.bpf :: p'.services[q];
  }

  lemma StepKeepsAgree(p: Ports, op: Op)
    requires Agree(p)
    ensures Agree(Apply(p, op))
  {
    match op
    case ListenOp(port, serviceID) => ListenKeepsAgree(p, port, serviceID);
    case RemoveOp(port) => RemoveKeepsAgree(p, port);
    case RecordOp(raw) =>
      var w := WakeOf(p, raw);
      if w.Some? { RemoveKeepsAgree(p, w.value.port); }
  }

  /** The ports whose latest listen was refused for want of room and that have not been removed since. */
  function Refused(ops: seq<Op>): set<uint32> {
    if ops == [] then {}
    else
      var p, before := Run(Front(ops)), Refused(Front(ops));
      match Last(ops)
      case ListenOp(port, serviceID) => if Listen(p, port, serviceID).1 then before - {port} else before + {port}
      case RemoveOp(port) => before - {port}
      case RecordOp(raw) => var w := WakeOf(p, raw); if w.Some? then before - {w.value.port} else before
  }

  lemma UnarmedByListen(p: Ports, port: uint32, serviceID: string)
    requires Agree(p)
    ensures var (p', ok) := Listen(p, port, serviceID);
      p'.services.Keys - p'.bpf == p.services.Keys - p.bpf - {port} + if ok then {} else {port}
  {
  }

  lemma UnarmedByRemove(p: Ports, port: uint32)
    requires Agree(p)
    ensures var p' := Remove(p, port).0; p'.services.Keys - p'.bpf == p.services.Keys - p.bpf - {port}
  {
  }

  /** Port-map agreement: after any history the BPF map and the log agree with the Go map, and what
      is mapped but not armed is exactly what was refused. */
  lemma {:induction false} PortMapsAgree(ops: seq<Op>)
    ensures Agree(Run(ops))
    ensures Run(ops).services.Keys - Run(ops).bpf == Refused(ops)
    ensures Run(ops).services.Keys == Run(ops).bpf <==> Refused(ops) == {}
  {
    if ops != [] {
      PortMapsAgree(Front(ops));
      var p := Run(Front(ops));
      StepKeepsAgree(p, Last(ops));
      match Last(ops)
      case ListenOp(port, serviceID) => UnarmedByListen(p, port, serviceID);
      case RemoveOp(port) => UnarmedByRemove(p, port);
      case RecordOp(raw) => if WakeOf(p, raw).Some? { UnarmedByRemove(p, WakeOf(p, raw).value.port); }
    }
  }

  // ----- whose port it is -----

  /** The record names this port. */
  predicate Names(raw: seq<uint8>, port: uint32) {
    |raw| >= 4 && LittleEndianUint32(raw) == port
  }

  /** The service of the latest listen on the port, unless a removal or an event for it came since. */
  function Holder(ops: seq<Op>, port: uint32): Option<string> {
    if ops == [] then None
    else
      match Last(ops)
      case ListenOp(q, serviceID) => if q == port then Some(serviceID) else Holder(Front(ops), port)
      case RemoveOp(q) => if q == port then None else Holder(Front(ops), port)
      case RecordOp(raw) => if Names(raw, port) then None else Holder(Front(ops), port)
  }

  /** What one operation does to the holder of a port. */
  lemma HolderStep(p: Ports, op: Op, port: uint32)
    ensures var before := if port in p.services then Some(p.services[port]) else None;
      var p' := Apply(p, op);
      (if port in p'.services then Some(p'.services[port]) else None) ==
        match op
        case ListenOp(q, serviceID) => if q == port then Some(serviceID) else before
        case RemoveOp(q) => if q == port then None else before
        case RecordOp(raw) => if Names(raw, port) then None else before
  {
  }

  lemma {:induction false} HolderIsMapped(ops: seq<Op>, port: uint32)
    ensures Holder(ops, port) == if port in Run(ops).services then Some(Run(ops).services[port]) else None
  {
    if ops != [] {
      HolderIsMapped(Front(ops), port);
      HolderStep(Run(Front(ops)), Last(ops), port);
      hide Apply;
    }
  }

  /** The last listen wins: after any history a port is mapped to its holder, an event for it wakes
      that service and no other, and it is armed unless that listen was refused. */
  lemma LastListenWins(ops: seq<Op>, port: uint32)
    ensures Holder(ops, port) == if port in Run(ops).services then Some(Run(ops).services[port]) else None
    ensures port in Run(ops).bpf <==> Holder(ops, port).Some? && port !in Refused(ops)
    ensures forall raw | Names(raw, port) ::
      WakeOf(Run(ops), raw) == if Holder(ops, port).Some? then Some(Wake(port, Holder(ops, port).value)) else None
  {
    PortMapsAgree(ops);
    HolderIsMapped(ops, port);
    hide Run, Holder, Refused;
  }

  /** What the calls answer after any history: a removal succeeds exactly on an armed port, a listen
      exactly on one or while fewer than 256 ports are armed. */
  lemma AnswersExactly(ops: seq<Op>, port: uint32, serviceID: string)
    ensures Remove(Run(ops), port).1 <==> Holder(ops, port).Some? && port !in Refused(ops)
    ensures Listen(Run(ops), port, serviceID).1 <==>
      (Holder(ops, port).Some? && port !in Refused(ops)) || |Run(ops).bpf| < 256
  {
    LastListenWins(ops, port);
    PortMapsAgree(ops);
    hide Run, Holder, Refused;
  }

  // ----- the capacity of the BPF map -----

  /** The history listens on ports of `ports` only. */
  ghost predicate ListensIn(ops: seq<Op>, ports: set<uint32>) {
    forall i | 0 <= i < |ops| && ops[i].ListenOp? :: ops[i].port in ports
  }

  lemma {:induction false} ArmedIn(ops: seq<Op>, ports: set<uint32>)
    requires ListensIn(ops, ports)
    ensures Run(ops).bpf <= ports
  {
    if ops != [] { ArmedIn(Front(ops), ports); }
  }

  lemma {:induction false} NoneRefused(ops: seq<Op>, ports: set<uint32>)
    requires ListensIn(ops, ports) && |ports| <= MAX_PORTS
    ensures Refused(ops) == {}
  {
    if ops != [] {
      NoneRefused(Front(ops), ports);
      ArmedIn(Front(ops), ports);
      if Last(ops).ListenOp? && Last(ops).port !in Run(Front(ops)).bpf {
        assert Last(ops).port in ports;
        SubsetSize(Run(Front(ops)).bpf, ports);
      }
    }
  }

  /** Listens on the ports 0 to n - 1. */
  function ListenEach(n: nat): seq<Op>
    requires n < TWO_TO_THE_32
  {
    if n == 0 then [] else ListenEach(n - 1) + [ListenOp(n - 1, "")]
  }

  /** The ports 0 to n - 1 are armed. */
  ghost predicate FilledTo(p: Ports, n: nat) {
    |p.bpf| == n && forall port | port in p.bpf :: port < n
  }

  lemma ListenFills(p: Ports, k: uint32)
    requires FilledTo(p, k) && k < MAX_PORTS
    ensures FilledTo(Listen(p, k, "").0, k + 1)
  {
    assert k !in p.bpf;
  }

  lemma {:induction false} ListenEachFills(n: nat)
    requires n <= MAX_PORTS
    ensures FilledTo(Run(ListenEach(n)), n)
  {
    if n > 0 {
      var k, before := n - 1, ListenEach(n - 1);
      assert Front(ListenEach(n)) == before && Last(ListenEach(n)) == ListenOp(k, "");
      assert Run(ListenEach(n)) == Listen(Run(before), k, "").0;
      hide Run, ListenEach, FilledTo, Listen;
      ListenEachFills(k);
      ListenFills(Run(before), k);
    }
  }

  lemma {:induction false} ListenEachIn(n: nat, ports: set<uint32>)
    requires n <= MAX_PORTS && forall port: uint32 | port < n :: port in ports
    ensures ListensIn(ListenEach(n), ports)
  {
    if n > 0 { ListenEachIn(n - 1, ports); }
  }

  lemma {:induction false} FirstPorts(n: nat) returns (ports: set<uint32>)
    requires n <= TWO_TO_THE_32
    ensures |ports| == n && forall port: uint32 | port < n :: port in ports
    ensures forall port | port in ports :: port < n
  {
    ports := {};
    if n > 0 {
      ports := FirstPorts(n - 1);
      ports := ports + {n - 1};
    }
  }

  lemma OneTooMany(n: nat, ports: set<uint32>)
    requires n == MAX_PORTS && forall port: uint32 | port <= n :: port in ports
    ensures var ops := ListenEach(n) + [ListenOp(n, "")]; ListensIn(ops, ports) && Refused(ops) != {}
  {
    ListenEachFills(n);
    ListenEachIn(n, ports);
    var ops := ListenEach(n) + [ListenOp(n, "")];
    assert Front(ops) == ListenEach(n);
    assert n in Refused(ops);
  }

  /** Exactly: in all histories that listen on at most `n` different ports no listen is refused if and
      only if `n` is at most 256. */
  lemma CapacityExactly(n: nat)
    ensures n <= 256 <==> forall ports: set<uint32>, ops: seq<Op> | |ports| <= n && ListensIn(ops, ports) ::
      Refused(ops) == {}
  {
    if n <= MAX_PORTS {
      forall ports: set<uint32>, ops: seq<Op> | |ports| <= n && ListensIn(ops, ports) ensures Refused(ops) == {} {
        NoneRefused(ops, ports);
      }
    } else {
      var m := MAX_PORTS;
      var ports := FirstPorts(m + 1);
      OneTooMany(m, ports);
    }
  }

  // ----- wakes -----

  function Mapped(ops: seq<Op>, port: uint32): nat {
    AsCount(port in Run(ops).services)
  }

  function Listens(ops: seq<Op>, port: uint32): nat {
    if ops == [] then 0
    else Listens(Front(ops), port) + AsCount(Last(ops).ListenOp? && Last(ops).port == port)
  }

  function Wakes(ops: seq<Op>, port: uint32): nat {
    if ops == [] then 0
    else
      var w := if Last(ops).RecordOp? then WakeOf(Run(Front(ops)), Last(ops).raw) else None;
      Wakes(Front(ops), port) + AsCount(w.Some? && w.value.port == port)
  }

  /** Removals that found the port mapped. */
  function Removals(ops: seq<Op>, port: uint32): nat {
    if ops == [] then 0
    else Removals(Front(ops), port) + AsCount(Last(ops) == RemoveOp(port) && port in Run(Front(ops)).services)
  }

  /** Listens on a port that was already mapped. */
  function Overwrites(ops: seq<Op>, port: uint32): nat {
    if ops == [] then 0
    else
      Overwrites(Front(ops), port) +
      AsCount(Last(ops).ListenOp? && Last(ops).port == port && port in Run(Front(ops)).services)
  }

  /** Every arming of a port ends in at most one wake: it is woken, removed, overwritten or still
      there. Queued and stale perf events trigger nothing more. */
  lemma {:induction false} EveryArmingIsSpentOnce(ops: seq<Op>, port: uint32)
    ensures Listens(ops, port) == Wakes(ops, port) + Removals(ops, port) + Overwrites(ops, port) + Mapped(ops, port)
    ensures Wakes(ops, port) + Mapped(ops, port) <= Listens(ops, port)
  {
    if ops != [] {
      EveryArmingIsSpentOnce(Front(ops), port);
    }
  }
}
