/** What one node knows of the others, and the requests it sends them
    (autoscaler/server/server.go, autoscaler/autoscaler/autoscaler.go). */
module Server {
  import opened Prelude
  import opened PortListener

  datatype SwarmNode = SwarmNode(hostname: string, ip: string, manager: bool)

  datatype SwarmNodeInfo = SwarmNodeInfo(autoscalerManager: bool, otherNodes: seq<SwarmNode>)

  method GetManagerNode(otherNodes: seq<SwarmNode>) returns (r: Result<SwarmNode, string>)
    ensures r.Ok? ==> exists i | 0 <= i < |otherNodes| ::
      r.value == otherNodes[i] && otherNodes[i].manager && forall j | 0 <= j < i :: !otherNodes[j].manager
    ensures r.Err? ==> forall i | 0 <= i < |otherNodes| :: !otherNodes[i].manager
  {
    for i := 0 to |otherNodes|
      invariant forall j | 0 <= j < i :: !otherNodes[j].manager
    {
      if otherNodes[i].manager {
        return Ok(otherNodes[i]);
      }
    }
    return Err("no manager node found");
  }

  /** `node` is what configuration map `hosts` says of its host. */
  predicate Describes(node: SwarmNode, hosts: map<string, string>, manager: bool) {
    node.hostname in hosts && node == SwarmNode(node.hostname, hosts[node.hostname], manager)
  }

  /** The entries of one configuration map, leaving `skip` out, as the nodes they describe. */
  ghost predicate Lists(nodes: seq<SwarmNode>, hosts: map<string, string>, skip: set<string>, manager: bool) {
    && (forall i | 0 <= i < |nodes| ::
      nodes[i].hostname in hosts.Keys - skip && Describes(nodes[i], hosts, manager))
    && (forall h | h in hosts.Keys - skip :: SwarmNode(h, hosts[h], manager) in nodes)
    && |nodes| == |hosts.Keys - skip|
  }

  /** One of the two loops over the configuration; Go visits the map in no fixed order. */
  method AppendNodes(hosts: map<string, string>, skip: set<string>, manager: bool) returns (nodes: seq<SwarmNode>)
    ensures Lists(nodes, hosts, skip, manager)
  {
    nodes := [];
    var todo := hosts.Keys - skip;
    while todo != {}
      invariant todo <= hosts.Keys - skip
      invariant forall i | 0 <= i < |nodes| ::
        nodes[i].hostname in hosts.Keys - skip - todo && Describes(nodes[i], hosts, manager)
      invariant forall h | h in hosts.Keys - skip - todo :: SwarmNode(h, hosts[h], manager) in nodes
      invariant |nodes| + |todo| == |hosts.Keys - skip|
      decreases |todo|
    {
      var h :| h in todo;
      nodes := nodes + [SwarmNode(h, hosts[h], manager)];
      todo := todo - {h};
    }
  }

  /** Other managers first, then the workers: a node leaves itself out of the managers but not out
      of the workers. */
  ghost predicate Configured(
      nodes: seq<SwarmNode>, hostname: string, managers: map<string, string>, workers: map<string, string>)
  {
    var k := |managers.Keys - {hostname}|;
    k <= |nodes| && Lists(nodes[..k], managers, {hostname}, true) && Lists(nodes[k..], workers, {}, false)
  }

  method CreateSwarmNodeInfo(hostname: string, managers: map<string, string>, workers: map<string, string>)
    returns (info: SwarmNodeInfo)
    ensures info.autoscalerManager <==> hostname in managers
    ensures Configured(info.otherNodes, hostname, managers, workers)
  {
    var ms := AppendNodes(managers, {hostname}, true);
    var ws := AppendNodes(workers, {}, false);
    info := SwarmNodeInfo(hostname in managers, ms + ws);
    assert info.otherNodes[..|ms|] == ms && info.otherNodes[|ms|..] == ws;
  }

  ghost predicate HasHost(nodes: seq<SwarmNode>, h: string) {
    exists i | 0 <= i < |nodes| :: nodes[i].hostname == h
  }

  ghost predicate HasManager(nodes: seq<SwarmNode>) {
    exists i | 0 <= i < |nodes| :: nodes[i].manager
  }

  lemma ListsHost(nodes: seq<SwarmNode>, hosts: map<string, string>, skip: set<string>, manager: bool, h: string)
    requires Lists(nodes, hosts, skip, manager)
    ensures HasHost(nodes, h) <==> h in hosts.Keys - skip
    ensures HasManager(nodes) <==> manager && hosts.Keys - skip != {}
  {
    if h in hosts.Keys - skip {
      assert SwarmNode(h, hosts[h], manager) in nodes;
    }
    assert nodes != [] ==> nodes[0].manager == manager;
  }

  lemma HasInConcat(a: seq<SwarmNode>, b: seq<SwarmNode>, h: string)
    ensures HasHost(a + b, h) <==> HasHost(a, h) || HasHost(b, h)
    ensures HasManager(a + b) <==> HasManager(a) || HasManager(b)
  {
    var ab := a + b;
    assert forall i | 0 <= i < |a| :: ab[i] == a[i];
    forall i | 0 <= i < |b| ensures ab[|a| + i] == b[i] {}
    assert forall i | 0 <= i < |ab| :: ab[i] == if i < |a| then a[i] else b[i - |a|];
  }

  /** Whom a configured node's broadcasts reach, and when it finds a manager among them. */
  lemma ConfiguredNodes(
      nodes: seq<SwarmNode>, hostname: string, managers: map<string, string>, workers: map<string, string>, h: string)
    requires Configured(nodes, hostname, managers, workers)
    ensures HasHost(nodes, h) <==> h in managers.Keys - {hostname} + workers.Keys
    ensures HasManager(nodes) <==> managers.Keys - {hostname} != {}
  {
    var k := |managers.Keys - {hostname}|;
    SplitAt(nodes, k);
    PartsReach(nodes[..k], nodes[k..], hostname, managers, workers, h);
  }

  lemma SplitAt(nodes: seq<SwarmNode>, k: nat)
    requires k <= |nodes|
    ensures nodes[..k] + nodes[k..] == nodes
  {
  }

  lemma PartsReach(
      ms: seq<SwarmNode>, ws: seq<SwarmNode>, hostname: string,
      managers: map<string, string>, workers: map<string, string>, h: string)
    requires Lists(ms, managers, {hostname}, true) && Lists(ws, workers, {}, false)
    ensures HasHost(ms + ws, h) <==> h in managers.Keys - {hostname} + workers.Keys
    ensures HasManager(ms + ws) <==> managers.Keys - {hostname} != {}
  {
    ListsHost(ms, managers, {hostname}, true, h);
    ListsHost(ws, workers, {}, false, h);
    HasInConcat(ms, ws, h);
  }

  // ----- broadcasts -----

  /** The request handler of node `n`. A failed listen becomes an HTTP status nobody reads. */
  function ListenAt(ports: map<string, Ports>, n: string, port: uint32, serviceID: string): map<string, Ports> {
    if n in ports then ports[n := Listen(ports[n], port, serviceID).0] else ports
  }

  function RemoveAt(ports: map<string, Ports>, n: string, port: uint32): map<string, Ports> {
    if n in ports then ports[n := Remove(ports[n], port).0] else ports
  }

  function ListenAll(ports: map<string, Ports>, nodes: seq<string>, port: uint32, serviceID: string)
    : map<string, Ports>
  {
    if nodes == [] then ports
    else ListenAt(ListenAll(ports, Front(nodes), port, serviceID), Last(nodes), port, serviceID)
  }

  function RemoveAll(ports: map<string, Ports>, nodes: seq<string>, port: uint32): map<string, Ports> {
    if nodes == [] then ports else RemoveAt(RemoveAll(ports, Front(nodes), port), Last(nodes), port)
  }

  /** A broadcast acts once on every node it reaches, however often the node is listed, and on no other. */
  lemma {:induction false} ListenAllAt(
      ports: map<string, Ports>, nodes: seq<string>, port: uint32, serviceID: string, n: string)
    requires n in ports
    ensures ListenAll(ports, nodes, port, serviceID).Keys == ports.Keys
    ensures ListenAll(ports, nodes, port, serviceID)[n] ==
      if n in nodes then Listen(ports[n], port, serviceID).0 else ports[n]
  {
    if nodes != [] {
      ListenAllAt(ports, Front(nodes), port, serviceID, n);
      assert nodes == Front(nodes) + [Last(nodes)];
      ListenTwice(ports[n], port, serviceID);
    }
  }

  lemma ListenTwice(p: Ports, port: uint32, serviceID: string)
    ensures var p' := Listen(p, port, serviceID).0; Listen(p', port, serviceID).0 == p'
  {
    var p' := Listen(p, port, serviceID).0;
    assert p'.services[port := serviceID] == p'.services;
    if port in p'.bpf {
      assert p'.bpf + {port} == p'.bpf && p'.log[port := serviceID] == p'.log;
    }
  }

  lemma {:induction false} RemoveAllAt(ports: map<string, Ports>, nodes: seq<string>, port: uint32, n: string)
    requires n in ports
    ensures RemoveAll(ports, nodes, port).Keys == ports.Keys
    ensures RemoveAll(ports, nodes, port)[n] == if n in nodes then Remove(ports[n], port).0 else ports[n]
  {
    if nodes != [] {
      RemoveAllAt(ports, Front(nodes), port, n);
      assert nodes == Front(nodes) + [Last(nodes)];
    }
  }

  /** The nodes as the HTTP requests reach them. */
  class Network {
    var ports: map<string, Ports>

    constructor (ports: map<string, Ports>)
      ensures this.ports == ports
    {
      this.ports := ports;
    }

    method ListenOnPort(n: string, port: uint32, serviceID: string) returns (ok: bool)
      requires n in ports
      modifies this
      ensures ports == old(ports)[n := Listen(old(ports)[n], port, serviceID).0]
      ensures ok == Listen(old(ports)[n], port, serviceID).1
    {
      ok := Listen(ports[n], port, serviceID).1;
      ports := ports[n := Listen(ports[n], port, serviceID).0];
    }

    method RemovePort(n: string, port: uint32) returns (ok: bool)
      requires n in ports
      modifies this
      ensures ports == old(ports)[n := Remove(old(ports)[n], port).0]
      ensures ok == Remove(old(ports)[n], port).1
    {
      ok := Remove(ports[n], port).1;
      ports := ports[n := Remove(ports[n], port).0];
    }

    /** Requests go out in order until the first one that fails; `reach` many get through. */
    method SendListenRequestToAllNodes(nodes: seq<string>, port: uint32, serviceID: string, reach: nat)
      returns (ok: bool)
      modifies this
      ensures ok <==> reach >= |nodes|
      ensures ports == ListenAll(old(ports), Reached(nodes, reach), port, serviceID)
    {
      for i := 0 to |nodes|
        invariant i <= reach
        invariant ports == ListenAll(old(ports), nodes[..i], port, serviceID)
      {
        if i == reach {
          return false;
        }
        ports := ListenAt(ports, nodes[i], port, serviceID);
        assert Front(nodes[..i + 1]) == nodes[..i];
      }
      assert nodes[..|nodes|] == nodes;
      return true;
    }

    method SendRemoveRequestToAllNodes(nodes: seq<string>, port: uint32, reach: nat) returns (ok: bool)
      modifies this
      ensures ok <==> reach >= |nodes|
      ensures ports == RemoveAll(old(ports), Reached(nodes, reach), port)
    {
      for i := 0 to |nodes|
        invariant i <= reach
        invariant ports == RemoveAll(old(ports), nodes[..i], port)
      {
        if i == reach {
          return false;
        }
        ports := RemoveAt(ports, nodes[i], port);
        assert Front(nodes[..i + 1]) == nodes[..i];
      }
      assert nodes[..|nodes|] == nodes;
      return true;
    }
  }

  function Reached(nodes: seq<string>, reach: nat): seq<string> {
    if reach < |nodes| then nodes[..reach] else nodes
  }

  /** A broadcast that `reach` requests of get through reaches the first `reach` nodes of the list, in
      order, and no other. */
  lemma ReachedAreFirst(nodes: seq<string>, reach: nat, n: string)
    ensures Reached(nodes, reach) <= nodes && |Reached(nodes, reach)| == if reach < |nodes| then reach else |nodes|
    ensures n in Reached(nodes, reach) <==> exists i | 0 <= i < |nodes| && i < reach :: nodes[i] == n
  {
  }

  /** What a broadcast that breaks off leaves on one node. */
  lemma PartialBroadcasts(
      ports: map<string, Ports>, nodes: seq<string>, reach: nat, port: uint32, serviceID: string, n: string)
    requires n in ports
    ensures var asked := exists i | 0 <= i < |nodes| && i < reach :: nodes[i] == n;
      && ListenAll(ports, Reached(nodes, reach), port, serviceID).Keys == ports.Keys
      && ListenAll(ports, Reached(nodes, reach), port, serviceID)[n] ==
         (if asked then Listen(ports[n], port, serviceID).0 else ports[n])
      && RemoveAll(ports, Reached(nodes, reach), port).Keys == ports.Keys
      && RemoveAll(ports, Reached(nodes, reach), port)[n] == if asked then Remove(ports[n], port).0 else ports[n]
  {
    ReachedAreFirst(nodes, reach, n);
    ListenAllAt(ports, Reached(nodes, reach), port, serviceID, n);
    RemoveAllAt(ports, Reached(nodes, reach), port, n);
  }

  lemma ListsEntry(nodes: seq<SwarmNode>, hosts: map<string, string>, skip: set<string>, manager: bool, x: SwarmNode)
    requires Lists(nodes, hosts, skip, manager)
    ensures x in nodes <==>
      x.hostname in hosts && x.hostname !in skip && x.ip == hosts[x.hostname] && x.manager == manager
  {
    if x in nodes {
      var i :| 0 <= i < |nodes| && nodes[i] == x;
      assert Describes(nodes[i], hosts, manager);
    }
  }

  /** Exactly what a configured node's list holds: every other manager and every worker, each with the
      address the configuration gives it and the role of its map. */
  lemma ConfiguredEntries(
      nodes: seq<SwarmNode>, hostname: string, managers: map<string, string>, workers: map<string, string>,
      x: SwarmNode)
    requires Configured(nodes, hostname, managers, workers)
    ensures |nodes| == |managers.Keys - {hostname}| + |workers|
    ensures x in nodes <==>
      if x.manager then x.hostname in managers && x.hostname != hostname && x.ip == managers[x.hostname]
      else x.hostname in workers && x.ip == workers[x.hostname]
  {
    var k := |managers.Keys - {hostname}|;
    SplitAt(nodes, k);
    assert |workers.Keys| == |workers| && workers.Keys - {} == workers.Keys;
    ListsEntry(nodes[..k], managers, {hostname}, true, x);
    ListsEntry(nodes[k..], workers, {}, false, x);
    InConcat(nodes[..k], nodes[k..], x);
  }

  /** All managers of a configured node's list come before all workers. */
  lemma ManagersFirst(
      nodes: seq<SwarmNode>, hostname: string, managers: map<string, string>, workers: map<string, string>)
    requires Configured(nodes, hostname, managers, workers)
    ensures forall i | 0 <= i < |nodes| :: nodes[i].manager <==> i < |managers.Keys - {hostname}|
  {
    var k := |managers.Keys - {hostname}|;
    forall i | 0 <= i < |nodes| ensures nodes[i].manager <==> i < k {
      if i < k {
        assert Describes(nodes[..k][i], managers, true);
      } else {
        assert Describes(nodes[k..][i - k], workers, false);
      }
    }
  }

  lemma InConcat<T>(a: seq<T>, b: seq<T>, x: T)
    ensures x in a + b <==> x in a || x in b
  {
  }
}
