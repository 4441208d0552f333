/** The port listener's event loop, one record at a time, on the tables of all nodes and the
    manager's scaling state (autoscaler/bpf_port_listen/listener.go). */
module WakeLoop {
  import opened Prelude
  import opened Bytes
  import opened PortClassifier
  import opened PortListener
  import opened Server
  import opened Scale
  import ScaleRuns
  import C = Cluster

  class EventLoop {
    const host: string
    const autoscalerManager: bool
    const otherNodes: seq<string>
    const network: Network
    /** The manager: this very process, or the one its HTTP requests reach. */
    const scaler: ScaleManager

    constructor (host: string, autoscalerManager: bool, otherNodes: seq<string>, network: Network, scaler: ScaleManager)
      ensures this.host == host && this.autoscalerManager == autoscalerManager && this.otherNodes == otherNodes
      ensures this.network == network && this.scaler == scaler
    {
      this.host, this.autoscalerManager, this.otherNodes, this.network, this.scaler :=
        host, autoscalerManager, otherNodes, network, scaler;
    }

    /** `reach` remove requests get through; `api` fixes which API calls of the final scaling succeed. */
    method HandleRecord(raw: seq<uint8>, reach: nat, api: Api)
      requires host in network.ports && scaler.autoscalerManager
      modifies network, scaler`services, scaler`keepAliveOps, scaler`goroutines, scaler`nextChannel
      ensures
        var w, ports := WakeOf(old(network.ports)[host], raw), old(network.ports);
        if w.None? then network.ports == ports && scaler.State() == old(scaler.State())
        else
          && network.ports ==
             RemoveAll(ports[host := Remove(ports[host], w.value.port).0], Reached(otherNodes, reach), w.value.port)
          && scaler.State() ==
             if autoscalerManager then Scaled(old(scaler.State()), w.value.serviceID, 1, api.scale).0
             else Request(old(scaler.State()), w.value.serviceID, "over", api).0
    {
      if |raw| < 4 {
        return;
      }
      var port := LittleEndianUint32(raw);
      if port !in network.ports[host].services {
        return;
      }
      var serviceID := network.ports[host].services[port];
      var _ := network.RemovePort(host, port);
      var _ := network.SendRemoveRequestToAllNodes(otherNodes, port, reach);
      if autoscalerManager {
        var _ := scaler.ScaleTo(serviceID, 1, api.scale);
      } else {
        var _ := scaler.ChangeServiceReplicas(serviceID, "over", api);
      }
    }
  }

  /** Removing front to back, as a wake does request by request, is the broadcast. */
  lemma DrainIsBroadcast(cfg: C.Config, c: C.State, n: string)
    requires n in c.wakes && n in c.world.ports
    ensures C.Drain(cfg, c, n).world.ports == RemoveAll(c.world.ports, c.wakes[n].todo, c.wakes[n].port)
  {
    var ports, todo, port := c.world.ports, c.wakes[n].todo, c.wakes[n].port;
    forall m | m in ports
      ensures C.Drain(cfg, c, n).world.ports.Keys == ports.Keys && RemoveAll(ports, todo, port).Keys == ports.Keys
      ensures C.Drain(cfg, c, n).world.ports[m] == RemoveAll(ports, todo, port)[m]
    {
      C.DrainRemoves(cfg, c, n, m);
      RemoveAllAt(ports, todo, port, m);
    }
  }

  /** A broadcast that breaks off, request by request. */
  lemma DrainUpToIsBroadcast(cfg: C.Config, c: C.State, n: string, reach: nat)
    requires n in c.wakes
    ensures C.DrainUpTo(cfg, c, n, reach).world.ports ==
      RemoveAll(c.world.ports, Reached(c.wakes[n].todo, reach), c.wakes[n].port)
  {
    var ports, todo, port := c.world.ports, c.wakes[n].todo, c.wakes[n].port;
    var d := C.DrainUpTo(cfg, c, n, reach).world.ports;
    KeysStay(cfg, c, n, reach);
    forall m | m in ports ensures m in d && d[m] == RemoveAll(ports, Reached(todo, reach), port)[m] {
      C.DrainUpToRemoves(cfg, c, n, reach, m);
      PartialBroadcasts(ports, todo, reach, port, "", m);
    }
  }

  lemma {:induction false} KeysStay(cfg: C.Config, c: C.State, n: string, reach: nat)
    requires n in c.wakes
    ensures C.DrainUpTo(cfg, c, n, reach).world.ports.Keys == c.world.ports.Keys
    ensures RemoveAll(c.world.ports, Reached(c.wakes[n].todo, reach), c.wakes[n].port).Keys == c.world.ports.Keys
  {
    var ports := c.world.ports;
    if m :| m in ports {
      C.DrainUpToRemoves(cfg, c, n, reach, m);
      PartialBroadcasts(ports, c.wakes[n].todo, reach, c.wakes[n].port, "", m);
    } else {
      EmptyStays(cfg, c, n, reach);
      EmptyRemoves(ports, Reached(c.wakes[n].todo, reach), c.wakes[n].port);
    }
  }

  lemma {:induction false} EmptyStays(cfg: C.Config, c: C.State, n: string, reach: nat)
    requires n in c.wakes && c.world.ports.Keys == {}
    ensures C.DrainUpTo(cfg, c, n, reach).world.ports.Keys == {}
    decreases |c.wakes[n].todo|
  {
    if c.wakes[n].todo != [] && reach > 0 {
      EmptyStays(cfg, C.Next(cfg, c, C.RemoveNext(n, true)), n, reach - 1);
    }
  }

  lemma {:induction false} EmptyRemoves(ports: map<string, Ports>, nodes: seq<string>, port: uint32)
    requires ports.Keys == {}
    ensures RemoveAll(ports, nodes, port).Keys == {}
  {
    if nodes != [] { EmptyRemoves(ports, Front(nodes), port); }
  }

  /** One turn of the event loop is a wake of the cluster: the packet, the remove requests up to the
      first that fails, and the final scaling with whatever calls of it succeed. */
  lemma RecordIsWake(cfg: C.Config, c: C.State, n: string, raw: seq<uint8>, reach: nat, api: Api)
    requires C.Structure(cfg, c) && n in c.world.ports && n !in c.wakes && WakeOf(c.world.ports[n], raw).Some?
    ensures var w := WakeOf(c.world.ports[n], raw).value;
      && C.Enabled(cfg, c, C.Packet(n, w.port))
      && var c1 := C.Next(cfg, c, C.Packet(n, w.port));
      && n in c1.wakes
      && var c2 := C.DrainUpTo(cfg, c1, n, reach);
      && C.Enabled(cfg, c2, C.Finish(n, api))
      && C.Next(cfg, c2, C.Finish(n, api)).world ==
         World(
           if n == cfg.manager then Scaled(c.world.scale, w.serviceID, 1, api.scale).0
           else Request(c.world.scale, w.serviceID, "over", api).0,
           RemoveAll(c.world.ports[n := Remove(c.world.ports[n], w.port).0], Reached(cfg.others[n], reach), w.port))
  {
    var w := WakeOf(c.world.ports[n], raw).value;
    assert C.NodeOwned(c.Services(), c.world.ports[n]);
    assert C.Owns(c.Services(), w.serviceID, w.port);
    DrainUpToIsBroadcast(cfg, C.Next(cfg, c, C.Packet(n, w.port)), n, reach);
  }

  /** With every call succeeding, one turn of the event loop is the cluster's whole wake. */
  lemma RecordIsWholeWake(cfg: C.Config, c: C.State, n: string, raw: seq<uint8>)
    requires C.Structure(cfg, c) && n in c.world.ports && n !in c.wakes && WakeOf(c.world.ports[n], raw).Some?
    ensures var w := WakeOf(c.world.ports[n], raw).value;
      && C.Enabled(cfg, c, C.Packet(n, w.port)) && w.port in c.world.ports[n].services
      && C.Owns(c.Services(), c.world.ports[n].services[w.port], w.port)
      && var (s, reply) := C.FinalScale(cfg, c.world.scale, n, w.serviceID, ALL_SUCCEED);
      C.WholeWake(cfg, c, n, w.port) ==
        C.State(
          World(s, RemoveAll(c.world.ports[n := Remove(c.world.ports[n], w.port).0], cfg.others[n], w.port)),
          if reply == Blocked then c.wakes[n := C.WakeInProgress(w.serviceID, w.port, [], true)] else c.wakes)
  {
    var w := WakeOf(c.world.ports[n], raw).value;
    assert C.NodeOwned(c.Services(), c.world.ports[n]);
    C.WholeWakeParts(cfg, c, n, w.port);
    DrainIsBroadcast(cfg, C.Next(cfg, c, C.Packet(n, w.port)), n);
  }

  /** From the frame to the replica: a TCP segment without IP options to the port of a sleeping
      service, at any idle node, raises an event the node's listener decodes to that service; the
      wake leaves the service with one replica, its port unmapped everywhere and the listener idle. */
  lemma SegmentIsServed(cfg: C.Config, c: C.State, id: string, n: string, frame: seq<uint8>, padding: seq<uint8>)
    requires C.Sound(cfg, c) && C.AtZero(c, id) && !C.LiveWake(cfg, c.world.scale, c.wakes, id)
    requires n in cfg.others && n !in c.wakes && (n == cfg.manager || !ScaleRuns.Orphan(c.world.scale, id))
    requires IsTcpSegment(frame) && HeaderLength(frame) == 20
    requires C.HasPort(c.Services()[id]) && DestinationPort(frame) == C.FirstPort(c.Services()[id])
    ensures var port: uint32, event := DestinationPort(frame), Classify(frame, c.world.ports[n].bpf);
      && event.Some? && WakeOf(c.world.ports[n], event.value + padding) == Some(Wake(port, id))
      && C.Enabled(cfg, c, C.Packet(n, port)) && port in c.world.ports[n].services
      && C.Owns(c.Services(), c.world.ports[n].services[port], port)
      && var d := C.WholeWake(cfg, c, n, port);
      && id in d.Services() && d.Services()[id].replicas == 1 && d.wakes == c.wakes
      && C.MappedWithin(d.world.ports, port, [])
  {
    var port: uint32 := DestinationPort(frame);
    C.SoundAnswers(cfg, c, id);
    assert C.Armed(c.world.ports[n], id, port) && C.NodeOwned(c.Services(), c.world.ports[n]);
    SegmentToService(frame, c.world.ports[n], padding);
    C.WholeWakeParts(cfg, c, n, port);
    C.WholeWakeUnmaps(cfg, c, n, port);
    FromZeroToOne(cfg, c.world.scale, n, id);
  }

  lemma FromZeroToOne(cfg: C.Config, s: ScaleState, n: string, id: string)
    requires id in s.services && s.services[id].replicated && s.services[id].replicas == 0
    requires n == cfg.manager || !ScaleRuns.Orphan(s, id)
    ensures var (s', reply) := C.FinalScale(cfg, s, n, id, ALL_SUCCEED);
      reply == Done && id in s'.services && s'.services[id].replicas == 1
  {
  }
}
