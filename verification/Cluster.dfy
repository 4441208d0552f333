/** Scale-to-zero and wake-up across the nodes: one listener per node, each handling one packet at
    a time, its removals and its final scaling interleaved with requests and timeouts on the manager
    (autoscaler/bpf_port_listen/listener.go, autoscaler/scale/scale.go, autoscaler/server/server.go). */
module Cluster {
  import opened Prelude
  import opened PortListener
  import opened Server
  import opened Scale
  import ScaleRuns

  /** `others` lists, node by node, whom its broadcasts go to. */
  datatype Config = Config(manager: string, others: map<string, seq<string>>)

  /** Every node's broadcasts reach all other nodes; a node may list itself, as workers do. */
  ghost predicate WellFormed(cfg: Config) {
    && cfg.manager in cfg.others
    && forall n {:trigger ReachesAll(cfg, n)} | n in cfg.others :: ReachesAll(cfg, n)
  }

  ghost predicate ReachesAll(cfg: Config, n: string)
    requires n in cfg.others
  {
    forall m | m != n :: m in cfg.others <==> m in cfg.others[n]
  }

  /** A wake that has disarmed its own node and has `todo` still to tell. It is stuck once its `over`
      request has blocked: that request never returns, and the listener handles nothing else. */
  datatype WakeInProgress = WakeInProgress(id: string, port: uint32, todo: seq<string>, stuck: bool)

  datatype State = State(world: World, wakes: map<string, WakeInProgress>) {
    function Services(): map<string, Service> {
      world.scale.services
    }
  }

  datatype Action =
    | Ask(id: string, direction: string, api: Api)         // a monitor's request reaches the manager
    | Expire(channel: nat, timeoutApi: TimeoutApi)         // the timeout branch, as one step
    | Packet(node: string, port: uint32)                   // an idle listener handles an event for `port`
    | RemoveNext(node: string, arrives: bool)              // the next remove request; an error ends the broadcast
    | Finish(node: string, api: Api)                       // ScaleTo(1) on the manager, `over` from a worker

  predicate Enabled(cfg: Config, c: State, a: Action) {
    match a
    case Ask(_, _, _) => true
    case Expire(ch, _) => ch in c.world.scale.waiting && cfg.manager in c.world.ports && cfg.manager in cfg.others
    case Packet(n, _) => n in c.world.ports && n in cfg.others && n !in c.wakes
    case RemoveNext(n, _) => n in c.wakes && c.wakes[n].todo != []
    case Finish(n, _) =>
      && n in c.wakes && c.wakes[n].todo == [] && !c.wakes[n].stuck
      && c.wakes[n].id in c.Services() && c.Services()[c.wakes[n].id].replicated
  }

  function WithScale(c: State, s: ScaleState): State {
    c.(world := c.world.(scale := s))
  }

  function Next(cfg: Config, c: State, a: Action): State
    requires Enabled(cfg, c, a)
  {
    match a
    case Ask(id, direction, api) =>
      WithScale(c, Request(c.world.scale, id, direction, api).0)
    case Expire(ch, api) =>
      c.(world := Timeout(c.world, cfg.manager, cfg.others[cfg.manager], ch, api))
    case Packet(n, port) =>
      var p := c.world.ports[n];
      if port in p.services then
        State(c.world.(ports := c.world.ports[n := Remove(p, port).0]),
                c.wakes[n := WakeInProgress(p.services[port], port, cfg.others[n], false)])
      else c
    case RemoveNext(n, arrives) =>
      var w := c.wakes[n];
      if arrives then
        State(c.world.(ports := RemoveAt(c.world.ports, w.todo[0], w.port)), c.wakes[n := w.(todo := w.todo[1..])])
      else c.(wakes := c.wakes[n := w.(todo := [])])
    case Finish(n, api) =>
      var (s, reply) := FinalScale(cfg, c.world.scale, n, c.wakes[n].id, api);
      WithScale(c, s).(wakes := if reply == Blocked then c.wakes[n := c.wakes[n].(stuck := true)] else c.wakes - {n})
  }

  function FinalScale(cfg: Config, s: ScaleState, n: string, id: string, api: Api): (ScaleState, Reply) {
    if n == cfg.manager then Scaled(s, id, 1, api.scale) else Request(s, id, "over", api)
  }

  // ----- the manager's part of a step is a step of ScaleRuns -----

  function ManagerAction(cfg: Config, c: State, a: Action): Option<ScaleRuns.Action>
    requires Enabled(cfg, c, a)
  {
    match a
    case Ask(id, direction, api) => Some(ScaleRuns.Ask(id, direction, api))
    case Expire(ch, api) =>
      Some(ScaleRuns.Expire(ch, Completes(c.world, cfg.manager, cfg.others[cfg.manager], ch, api)))
    case Packet(_, _) => None
    case RemoveNext(_, _) => None
    case Finish(n, api) =>
      if n == cfg.manager then Some(ScaleRuns.Revive(c.wakes[n].id, api.scale))
      else Some(ScaleRuns.Ask(c.wakes[n].id, "over", api))
  }

  /** Every step of the cluster is a step of the manager, or leaves the manager alone, so what
      holds of the manager's runs holds of the cluster's. */
  lemma RefinesManager(cfg: Config, c: State, a: Action)
    requires Enabled(cfg, c, a)
    ensures var m, s, s' := ManagerAction(cfg, c, a), c.world.scale, Next(cfg, c, a).world.scale;
      if m.Some? then ScaleRuns.Enabled(s, m.value) && s' == ScaleRuns.Next(s, m.value) else s' == s
  {
  }

  /** A waiting goroutine's timer may fire in any state, whatever calls of its branch succeed, and
      the cluster then does what the timeout branch does. */
  lemma TimersFire(cfg: Config, c: State, ch: nat, api: TimeoutApi)
    requires WellFormed(cfg) && c.world.ports.Keys == cfg.others.Keys && ch in c.world.scale.waiting
    ensures Enabled(cfg, c, Expire(ch, api))
    ensures Next(cfg, c, Expire(ch, api)) ==
      State(Timeout(c.world, cfg.manager, cfg.others[cfg.manager], ch, api), c.wakes)
  {
    assert ReachesAll(cfg, cfg.manager);
  }

  /** A stale event, for a port the idle node no longer maps, is handled without any effect. */
  lemma StaleEventsPass(cfg: Config, c: State, n: string, port: uint32)
    requires n in c.world.ports && n in cfg.others && n !in c.wakes && port !in c.world.ports[n].services
    ensures Enabled(cfg, c, Packet(n, port)) && Next(cfg, c, Packet(n, port)) == c
  {
  }

  // ----- what every run keeps -----

  predicate HasPort(svc: Service) {
    svc.publishedPorts != []
  }

  function FirstPort(svc: Service): uint32
    requires HasPort(svc)
  {
    svc.publishedPorts[0]
  }

  /** `port` is the published port of the replicated service `id`. */
  ghost predicate Owns(services: map<string, Service>, id: string, port: uint32) {
    id in services && services[id].replicated && HasPort(services[id]) && FirstPort(services[id]) == port
  }

  /** No two services publish the same first port, and at most 256 services exist. */
  ghost predicate DistinctPorts(services: map<string, Service>) {
    && |services| <= MAX_PORTS
    && forall a, b | a in services && b in services && a != b && HasPort(services[a]) && HasPort(services[b]) ::
      FirstPort(services[a]) != FirstPort(services[b])
  }

  ghost predicate Armed(p: Ports, id: string, port: uint32) {
    port in p.bpf && port in p.services && p.services[port] == id
  }

  ghost predicate ArmedEverywhere(ports: map<string, Ports>, id: string, port: uint32) {
    forall n | n in ports :: Armed(ports[n], id, port)
  }

  /** A wake for the service is on its way. */
  ghost predicate WakePending(wakes: map<string, WakeInProgress>, id: string) {
    exists n | n in wakes :: wakes[n].id == id && !wakes[n].stuck
  }

  /** The wake at `n` can still scale its service: the manager's always, a worker's unless its `over`
      request is blocked or bound to block on an orphaned entry. */
  predicate CanScale(cfg: Config, s: ScaleState, n: string, w: WakeInProgress) {
    !w.stuck && (n == cfg.manager || !ScaleRuns.Orphan(s, w.id))
  }

  /** One of `wakes` is for the service and can still scale it. */
  ghost predicate LiveWake(cfg: Config, s: ScaleState, wakes: map<string, WakeInProgress>, id: string) {
    exists n | n in wakes :: wakes[n].id == id && CanScale(cfg, s, n, wakes[n])
  }

  /** The port of the service is armed for it on every node, or one of `wakes` can still scale it. */
  ghost predicate Answered(cfg: Config, c: State, wakes: map<string, WakeInProgress>, id: string) {
    && id in c.Services() && HasPort(c.Services()[id])
    && (ArmedEverywhere(c.world.ports, id, FirstPort(c.Services()[id])) || LiveWake(cfg, c.world.scale, wakes, id))
  }

  /** The wake-up guarantee for one service. */
  ghost predicate NotLost(cfg: Config, c: State, id: string) {
    id in c.Services() && c.Services()[id].replicas == 0 ==> Answered(cfg, c, c.wakes, id)
  }

  ghost predicate NoneLost(cfg: Config, c: State) {
    forall id {:trigger NotLost(cfg, c, id)} | id in c.Services() :: NotLost(cfg, c, id)
  }

  /** A node's port table mentions services under their own ports only. */
  ghost predicate NodeOwned(services: map<string, Service>, p: Ports) {
    Agree(p) && forall port | port in p.services :: Owns(services, p.services[port], port)
  }

  ghost predicate PortsOwned(services: map<string, Service>, ports: map<string, Ports>) {
    forall n {:trigger NodeOwned(services, ports[n])} | n in ports :: NodeOwned(services, ports[n])
  }

  ghost predicate WakesOwned(cfg: Config, services: map<string, Service>, wakes: map<string, WakeInProgress>) {
    forall n | n in wakes :: n in cfg.others && Owns(services, wakes[n].id, wakes[n].port)
  }

  /** A stuck wake is a worker's, on an orphaned entry, with its removals all sent. */
  ghost predicate StuckOnOrphans(cfg: Config, s: ScaleState, wakes: map<string, WakeInProgress>) {
    forall n | n in wakes && wakes[n].stuck ::
      n != cfg.manager && wakes[n].todo == [] && ScaleRuns.Orphan(s, wakes[n].id)
  }

  ghost predicate Structure(cfg: Config, c: State) {
    && WellFormed(cfg) && c.world.ports.Keys == cfg.others.Keys
    && ScaleRuns.Inv(c.world.scale) && DistinctPorts(c.Services())
    && PortsOwned(c.Services(), c.world.ports) && WakesOwned(cfg, c.Services(), c.wakes)
    && StuckOnOrphans(cfg, c.world.scale, c.wakes)
  }

  ghost predicate Sound(cfg: Config, c: State) {
    Structure(cfg, c) && NoneLost(cfg, c)
  }

  // ----- one node's table -----

  /** With at most 256 services no listen is ever refused. */
  lemma ListenAccepted(services: map<string, Service>, p: Ports, id: string, port: uint32)
    requires DistinctPorts(services) && NodeOwned(services, p) && Owns(services, id, port)
    ensures Listen(p, port, id).1
  {
    if port !in p.bpf {
      var ids := Image(p.services, p.bpf);
      ImageSize(p.services, p.bpf);
      assert forall q | q in p.bpf :: Owns(services, p.services[q], q);
      assert ids <= services.Keys && id in services.Keys && id !in ids && ids != services.Keys;
      SubsetSize(ids, services.Keys);
      assert |services.Keys| == |services|;
    }
  }

  /** What a port table keeps of the other ports. */
  ghost predicate KeepsOthers(p: Ports, p': Ports, port: uint32) {
    forall q | q != port :: (q in p.bpf <==> q in p'.bpf) && (q in p.services <==> q in p'.services)
      && (q in p.services ==> p.services[q] == p'.services[q])
  }

  lemma NodeListen(services: map<string, Service>, p: Ports, id: string, port: uint32)
    requires DistinctPorts(services) && NodeOwned(services, p) && Owns(services, id, port)
    ensures var p' := Listen(p, port, id).0;
      NodeOwned(services, p') && Armed(p', id, port) && KeepsOthers(p, p', port)
  {
    ListenAccepted(services, p, id, port);
    ListenKeepsAgree(p, port, id);
  }

  lemma NodeRemove(services: map<string, Service>, p: Ports, port: uint32)
    requires NodeOwned(services, p)
    ensures var p' := Remove(p, port).0;
      NodeOwned(services, p') && port !in p'.services && KeepsOthers(p, p', port)
  {
    RemoveKeepsAgree(p, port);
  }

  /** The same for all nodes. */
  ghost predicate AllKeepOthers(ports: map<string, Ports>, ports': map<string, Ports>, port: uint32) {
    ports'.Keys == ports.Keys && forall n | n in ports :: KeepsOthers(ports[n], ports'[n], port)
  }

  lemma StillArmed(ports: map<string, Ports>, ports': map<string, Ports>, port: uint32, id: string, q: uint32)
    requires AllKeepOthers(ports, ports', port) && q != port && ArmedEverywhere(ports, id, q)
    ensures ArmedEverywhere(ports', id, q)
  {
    forall n | n in ports' ensures Armed(ports'[n], id, q) {
      assert Armed(ports[n], id, q);
    }
  }

  // ----- the timeout branch on all nodes -----

  /** The nodes on which a timeout listens, as far as it gets. */
  predicate ListensAt(cfg: Config, s: ScaleState, ch: nat, api: TimeoutApi, n: string)
    requires ch in s.waiting && cfg.manager in cfg.others
  {
    ReachesListen(s, ch, api) && (n == cfg.manager || n in Reached(cfg.others[cfg.manager], api.reach))
  }

  /** Every node's table after a timeout. */
  lemma TimeoutPorts(cfg: Config, c: State, ch: nat, api: TimeoutApi, n: string)
    requires Structure(cfg, c) && Enabled(cfg, c, Expire(ch, api)) && n in c.world.ports
    ensures var id := c.world.scale.waiting[ch];
      var ports := Next(cfg, c, Expire(ch, api)).world.ports;
      && ports.Keys == c.world.ports.Keys
      && ports[n] ==
         (if ListensAt(cfg, c.world.scale, ch, api, n)
          then Listen(c.world.ports[n], c.Services()[id].publishedPorts[0], id).0 else c.world.ports[n])
      && (Completes(c.world, cfg.manager, cfg.others[cfg.manager], ch, api) ==>
          ListensAt(cfg, c.world.scale, ch, api, n))
  {
    var id, m := c.world.scale.waiting[ch], cfg.manager;
    assert ReachesAll(cfg, m);
    if ReachesListen(c.world.scale, ch, api) {
      var port := c.Services()[id].publishedPorts[0];
      ExpireOwns(cfg, c, ch, api);
      assert NodeOwned(c.Services(), c.world.ports[m]);
      ListenAccepted(c.Services(), c.world.ports[m], id, port);
      var armedHere := c.world.ports[m := Listen(c.world.ports[m], port, id).0];
      ListenAllAt(armedHere, Reached(cfg.others[m], api.reach), port, id, n);
      ListenTwice(c.world.ports[n], port, id);
    }
  }

  // ----- what one step does to the structure -----

  lemma TransferServices(
      cfg: Config, a: map<string, Service>, b: map<string, Service>,
      ports: map<string, Ports>, wakes: map<string, WakeInProgress>)
    requires ScaleRuns.SameServices(a, b) && DistinctPorts(a) && PortsOwned(a, ports) && WakesOwned(cfg, a, wakes)
    ensures DistinctPorts(b) && PortsOwned(b, ports) && WakesOwned(cfg, b, wakes)
  {
    assert |a.Keys| == |a| && |b.Keys| == |b|;
    assert forall id, port :: Owns(a, id, port) ==> Owns(b, id, port);
    forall n | n in ports ensures NodeOwned(b, ports[n]) {
      assert NodeOwned(a, ports[n]);
    }
  }

  lemma ManagerStep(cfg: Config, c: State, a: Action)
    requires ScaleRuns.Inv(c.world.scale) && Enabled(cfg, c, a)
    ensures var c' := Next(cfg, c, a);
      ScaleRuns.Inv(c'.world.scale) && ScaleRuns.SameServices(c.Services(), c'.Services())
  {
    RefinesManager(cfg, c, a);
    var m := ManagerAction(cfg, c, a);
    if m.Some? {
      ScaleRuns.StepKeepsInv(c.world.scale, m.value);
      ScaleRuns.StepKeepsServices(c.world.scale, m.value);
    }
  }

  /** The port whose entries a step may change. */
  function TouchedPort(c: State, a: Action): Option<uint32> {
    match a
    case Expire(ch, api) =>
      if ch in c.world.scale.waiting && ReachesListen(c.world.scale, ch, api)
      then Some(c.Services()[c.world.scale.waiting[ch]].publishedPorts[0]) else None
    case Packet(n, port) => if n in c.world.ports && port in c.world.ports[n].services then Some(port) else None
    case RemoveNext(n, arrives) => if arrives && n in c.wakes then Some(c.wakes[n].port) else None
    case _ => None
  }

  lemma ExpireOwns(cfg: Config, c: State, ch: nat, api: TimeoutApi)
    requires Structure(cfg, c) && ch in c.world.scale.waiting && ReachesListen(c.world.scale, ch, api)
    ensures var id := c.world.scale.waiting[ch]; Owns(c.Services(), id, c.Services()[id].publishedPorts[0])
  {
  }

  /** Changing one node's table. */
  lemma OneNode(services: map<string, Service>, ports: map<string, Ports>, n: string, port: uint32)
    requires PortsOwned(services, ports) && n in ports
    ensures var ports' := ports[n := Remove(ports[n], port).0];
      PortsOwned(services, ports') && AllKeepOthers(ports, ports', port)
  {
    NodeRemove(services, ports[n], port);
    var ports' := ports[n := Remove(ports[n], port).0];
    forall m | m in ports' ensures NodeOwned(services, ports'[m]) && KeepsOthers(ports[m], ports'[m], port) {
      assert NodeOwned(services, ports[m]);
    }
  }

  /** Only the touched port moves, and the tables stay owned. */
  ghost predicate PortsMove(
      services: map<string, Service>, ports: map<string, Ports>, ports': map<string, Ports>, touched: Option<uint32>)
  {
    && PortsOwned(services, ports') && ports'.Keys == ports.Keys
    && match touched { case None => ports' == ports case Some(q) => AllKeepOthers(ports, ports', q) }
  }

  lemma RemoveNextStep(cfg: Config, c: State, n: string, arrives: bool)
    requires Structure(cfg, c) && Enabled(cfg, c, RemoveNext(n, arrives))
    ensures var a := RemoveNext(n, arrives);
      PortsMove(c.Services(), c.world.ports, Next(cfg, c, a).world.ports, TouchedPort(c, a))
  {
    var m := c.wakes[n].todo[0];
    if arrives && m in c.world.ports { OneNode(c.Services(), c.world.ports, m, c.wakes[n].port); }
  }

  lemma PortsStep(cfg: Config, c: State, a: Action)
    requires Structure(cfg, c) && Enabled(cfg, c, a)
    ensures PortsMove(c.Services(), c.world.ports, Next(cfg, c, a).world.ports, TouchedPort(c, a))
  {
    match a
    case Ask(_, _, _) =>
    case Expire(ch, api) => ExpireStep(cfg, c, ch, api);
    case Packet(n, port) => OneNode(c.Services(), c.world.ports, n, port);
    case RemoveNext(n, arrives) => RemoveNextStep(cfg, c, n, arrives);
    case Finish(_, _) =>
  }

  lemma ExpireStep(cfg: Config, c: State, ch: nat, api: TimeoutApi)
    requires Structure(cfg, c) && Enabled(cfg, c, Expire(ch, api))
    ensures var a := Expire(ch, api);
      PortsMove(c.Services(), c.world.ports, Next(cfg, c, a).world.ports, TouchedPort(c, a))
  {
    if ReachesListen(c.world.scale, ch, api) {
      ExpireOwns(cfg, c, ch, api);
      var id := c.world.scale.waiting[ch];
      var port := c.Services()[id].publishedPorts[0];
      var ports' := Next(cfg, c, Expire(ch, api)).world.ports;
      assert cfg.manager in c.world.ports;
      TimeoutPorts(cfg, c, ch, api, cfg.manager);
      forall n | n in c.world.ports
        ensures NodeOwned(c.Services(), ports'[n]) && KeepsOthers(c.world.ports[n], ports'[n], port)
      {
        TimeoutPorts(cfg, c, ch, api, n);
        NodeListen(c.Services(), c.world.ports[n], id, port);
      }
    }
  }

  /** Whose entry has lost its goroutine after a step. */
  lemma OrphanStep(cfg: Config, c: State, a: Action, id: string)
    requires ScaleRuns.Inv(c.world.scale) && Enabled(cfg, c, a)
    ensures ScaleRuns.Orphan(Next(cfg, c, a).world.scale, id) <==>
      ScaleRuns.Orphan(c.world.scale, id) || FailsTimeout(cfg, c, a, id)
  {
    RefinesManager(cfg, c, a);
    var m := ManagerAction(cfg, c, a);
    if m.Some? {
      ScaleRuns.StepMovesOrphan(c.world.scale, m.value, id);
    }
  }

  /** A timeout of the service that does not run to its end. */
  predicate FailsTimeout(cfg: Config, c: State, a: Action, id: string)
    requires Enabled(cfg, c, a)
  {
    a.Expire? && c.world.scale.waiting[a.channel] == id &&
    !Completes(c.world, cfg.manager, cfg.others[cfg.manager], a.channel, a.timeoutApi)
  }

  /** A wake becomes stuck on an orphaned entry only, and that entry stays orphaned. */
  lemma StuckStep(cfg: Config, c: State, a: Action)
    requires Structure(cfg, c) && Enabled(cfg, c, a)
    ensures StuckOnOrphans(cfg, Next(cfg, c, a).world.scale, Next(cfg, c, a).wakes)
  {
    var c' := Next(cfg, c, a);
    forall n | n in c'.wakes && c'.wakes[n].stuck
      ensures n != cfg.manager && c'.wakes[n].todo == [] && ScaleRuns.Orphan(c'.world.scale, c'.wakes[n].id)
    {
      OrphanStep(cfg, c, a, c'.wakes[n].id);
      if a.Finish? && n == a.node { FinishBlocks(cfg, c, n, a.api); }
    }
  }

  lemma FinishBlocks(cfg: Config, c: State, n: string, api: Api)
    requires Enabled(cfg, c, Finish(n, api)) && n in Next(cfg, c, Finish(n, api)).wakes
    ensures n != cfg.manager && ScaleRuns.Orphan(c.world.scale, c.wakes[n].id)
    ensures Next(cfg, c, Finish(n, api)).wakes == c.wakes[n := c.wakes[n].(stuck := true)]
  {
  }

  lemma WakesStep(cfg: Config, c: State, a: Action)
    requires Structure(cfg, c) && Enabled(cfg, c, a)
    ensures WakesOwned(cfg, c.Services(), Next(cfg, c, a).wakes)
  {
    match a
    case Ask(_, _, _) =>
    case Expire(_, _) =>
    case Packet(n, port) => assert NodeOwned(c.Services(), c.world.ports[n]);
    case RemoveNext(_, _) =>
    case Finish(n, api) =>
      var wakes' := Next(cfg, c, a).wakes;
      assert wakes' == c.wakes[n := c.wakes[n].(stuck := true)] || wakes' == c.wakes - {n};
  }

  /** The structure is kept by every step, failures included. */
  lemma StepKeepsStructure(cfg: Config, c: State, a: Action)
    requires Structure(cfg, c) && Enabled(cfg, c, a)
    ensures Structure(cfg, Next(cfg, c, a))
  {
    var c' := Next(cfg, c, a);
    ManagerStep(cfg, c, a);
    PortsStep(cfg, c, a);
    WakesStep(cfg, c, a);
    StuckStep(cfg, c, a);
    TransferServices(cfg, c.Services(), c'.Services(), c'.world.ports, c'.wakes);
  }

  // ----- no lost wake-up -----

  /** The final scaling of a wake at `n` leaves its service at 0: the manager's ScaleTo fails, or a
      worker's `over` request fails, blocks on an orphaned entry, or wraps. */
  predicate LeavesAsleep(cfg: Config, s: ScaleState, n: string, id: string, api: Api)
    requires id in s.services
  {
    if n == cfg.manager then s.services[id].replicas == 0 && !api.scale
    else if s.services[id].replicas == 0 then !api.inspect || !api.scale || ScaleRuns.Orphan(s, id)
    else ScaleRuns.Wraps(s, id, "over", api)
  }

  predicate AtZero(c: State, id: string) {
    id in c.Services() && c.Services()[id].replicas == 0
  }

  /** The manager has a wake for the service; no orphaned entry stops it. */
  predicate ManagerWakes(cfg: Config, wakes: map<string, WakeInProgress>, id: string) {
    cfg.manager in wakes && wakes[cfg.manager].id == id && !wakes[cfg.manager].stuck
  }

  /** The timeout leaves the port of its service armed on every node. */
  ghost predicate ArmsAll(cfg: Config, c: State, ch: nat, api: TimeoutApi, id: string, port: uint32)
    requires Enabled(cfg, c, Expire(ch, api))
  {
    forall n | n in c.world.ports :: ListensAt(cfg, c.world.scale, ch, api, n) || Armed(c.world.ports[n], id, port)
  }

  /** The steps that lose no wake-up. A request that wraps, and a final scaling that leaves its service
      at 0, find the port armed everywhere or a live wake left. For a service at 0: a timeout that
      fails, and so stops all workers' wakes, leaves the port armed everywhere or finds the manager's
      wake; a packet whose wake cannot scale, and a remove request of such a wake, find one that
      can. Whatever else fails -- listen and remove requests, timeouts, scaling requests -- is benign. */
  ghost predicate Benign(cfg: Config, c: State, a: Action) {
    Enabled(cfg, c, a) &&
    match a
    case Ask(id, direction, api) =>
      ScaleRuns.Wraps(c.world.scale, id, direction, api) ==> Answered(cfg, c, c.wakes, id)
    case Expire(ch, api) =>
      var id := c.world.scale.waiting[ch];
      AtZero(c, id) && HasPort(c.Services()[id]) && FailsTimeout(cfg, c, a, id) ==>
        ManagerWakes(cfg, c.wakes, id) || ArmsAll(cfg, c, ch, api, id, FirstPort(c.Services()[id]))
    case Packet(n, port) =>
      port in c.world.ports[n].services ==>
        var id := c.world.ports[n].services[port];
        AtZero(c, id) && n != cfg.manager && ScaleRuns.Orphan(c.world.scale, id) ==>
          LiveWake(cfg, c.world.scale, c.wakes, id)
    case RemoveNext(n, arrives) =>
      arrives && c.wakes[n].todo[0] in c.world.ports && AtZero(c, c.wakes[n].id) ==>
        LiveWake(cfg, c.world.scale, c.wakes, c.wakes[n].id)
    case Finish(n, api) =>
      LeavesAsleep(cfg, c.world.scale, n, c.wakes[n].id, api) ==> Answered(cfg, c, c.wakes - {n}, c.wakes[n].id)
  }

  /** A request takes a service to 0 exactly by wrapping. */
  lemma AskToZero(s: ScaleState, id: string, direction: string, api: Api, x: string)
    requires ScaleRuns.Inv(s) && x in s.services
    ensures var s' := Request(s, id, direction, api).0;
      && x in s'.services
      && (x == id && ScaleRuns.Wraps(s, id, direction, api) ==> s'.services[x].replicas == 0)
      && (s'.services[x].replicas == 0 ==>
          s.services[x].replicas == 0 || (x == id && ScaleRuns.Wraps(s, id, direction, api)))
  {
    var a := ScaleRuns.Ask(id, direction, api);
    ScaleRuns.AskMovesReplicas(s, a, x);
    if x == id {
      ScaleRuns.OverMovesReplicas(s, id, api);
    }
  }

  lemma FinalScaleToZero(cfg: Config, s: ScaleState, n: string, id: string, api: Api)
    requires ScaleRuns.Inv(s) && id in s.services && s.services[id].replicated
    ensures var (s', reply) := FinalScale(cfg, s, n, id, api);
      && ScaleRuns.OnlyReplicas(s, s', id, s'.services[id].replicas)
      && (s'.services[id].replicas == 0 <==> LeavesAsleep(cfg, s, n, id, api))
  {
    if n != cfg.manager { ScaleRuns.OverMovesReplicas(s, id, api); }
  }

  /** The final scaling of a wake ends it or gets it stuck, and leaves the service at 0 exactly when
      `LeavesAsleep` says so. */
  lemma FinishToZero(cfg: Config, c: State, n: string, api: Api)
    requires ScaleRuns.Inv(c.world.scale) && Enabled(cfg, c, Finish(n, api))
    ensures var id, c' := c.wakes[n].id, Next(cfg, c, Finish(n, api));
      && c'.world.ports == c.world.ports
      && ScaleRuns.OnlyReplicas(c.world.scale, c'.world.scale, id, c'.Services()[id].replicas)
      && (c'.Services()[id].replicas == 0 <==> LeavesAsleep(cfg, c.world.scale, n, id, api))
      && (c'.wakes == c.wakes - {n} || c'.wakes == c.wakes[n := c.wakes[n].(stuck := true)])
  {
    FinalScaleToZero(cfg, c.world.scale, n, c.wakes[n].id, api);
  }

  /** A worker's final scaling blocks exactly on an orphaned entry it reaches. */
  lemma FinishBlocksExactly(cfg: Config, c: State, n: string, api: Api)
    requires Enabled(cfg, c, Finish(n, api)) && api.inspect && api.pin
    ensures n in Next(cfg, c, Finish(n, api)).wakes <==>
      n != cfg.manager && ScaleRuns.Orphan(c.world.scale, c.wakes[n].id)
  {
  }

  /** A stuck wake counts as none. */
  lemma StuckIsGone(cfg: Config, s: ScaleState, wakes: map<string, WakeInProgress>, n: string, id: string)
    requires n in wakes
    ensures var w := wakes[n := wakes[n].(stuck := true)];
      && (LiveWake(cfg, s, w, id) <==> LiveWake(cfg, s, wakes - {n}, id))
      && (WakePending(w, id) <==> WakePending(wakes - {n}, id))
  {
    var w, rest := wakes[n := wakes[n].(stuck := true)], wakes - {n};
    assert forall m | m in rest :: m in w && w[m] == rest[m];
    assert forall m | m in w && !w[m].stuck :: m in rest && rest[m] == w[m];
  }

  /** A wake for another service makes no difference. */
  lemma OtherWakeLives(cfg: Config, s: ScaleState, wakes: map<string, WakeInProgress>, n: string, id: string)
    requires n in wakes && wakes[n].id != id
    ensures LiveWake(cfg, s, wakes, id) <==> LiveWake(cfg, s, wakes - {n}, id)
    ensures WakePending(wakes, id) <==> WakePending(wakes - {n}, id)
  {
    var rest := wakes - {n};
    assert forall m | m in wakes && wakes[m].id == id :: m in rest && rest[m] == wakes[m];
    assert forall m | m in rest :: m in wakes && wakes[m] == rest[m];
  }

  /** Nothing that answers for `id` moved. */
  lemma SameAnswer(cfg: Config, c: State, c': State, wakes: map<string, WakeInProgress>, id: string)
    requires c'.world.ports == c.world.ports && ScaleRuns.SameServices(c.Services(), c'.Services())
    requires ScaleRuns.Orphan(c'.world.scale, id) <==> ScaleRuns.Orphan(c.world.scale, id)
    ensures Answered(cfg, c, wakes, id) <==> Answered(cfg, c', wakes, id)
  {
  }

  lemma AskKeepsNoneLostExactly(cfg: Config, c: State, a: Action)
    requires Sound(cfg, c) && a.Ask?
    ensures NoneLost(cfg, Next(cfg, c, a)) <==> Benign(cfg, c, a)
  {
    var c' := Next(cfg, c, a);
    ManagerStep(cfg, c, a);
    forall id | id in c'.Services()
      ensures NotLost(cfg, c', id) <==> (id == a.id ==> Benign(cfg, c, a))
    {
      assert NotLost(cfg, c, id);
      AskToZero(c.world.scale, a.id, a.direction, a.api, id);
      OrphanStep(cfg, c, a, id);
      SameAnswer(cfg, c, c', c.wakes, id);
    }
    if a.id in c'.Services() { assert NotLost(cfg, c', a.id) <==> Benign(cfg, c, a); }
  }

  lemma FinishKeepsNoneLostExactly(cfg: Config, c: State, n: string, api: Api)
    requires Sound(cfg, c) && Enabled(cfg, c, Finish(n, api))
    ensures NoneLost(cfg, Next(cfg, c, Finish(n, api))) <==> Benign(cfg, c, Finish(n, api))
  {
    var c', x := Next(cfg, c, Finish(n, api)), c.wakes[n].id;
    FinishToZero(cfg, c, n, api);
    forall id | id in c'.Services()
      ensures NotLost(cfg, c', id) <==> (id == x ==> Benign(cfg, c, Finish(n, api)))
    {
      assert NotLost(cfg, c, id);
      FinishAnswers(cfg, c, n, api, id);
    }
    assert NotLost(cfg, c', x) <==> Benign(cfg, c, Finish(n, api));
  }

  /** What still answers after a final scaling. */
  lemma FinishAnswers(cfg: Config, c: State, n: string, api: Api, id: string)
    requires Structure(cfg, c) && Enabled(cfg, c, Finish(n, api))
    ensures var c' := Next(cfg, c, Finish(n, api));
      Answered(cfg, c', c'.wakes, id) <==> Answered(cfg, c, if id == c.wakes[n].id then c.wakes - {n} else c.wakes, id)
  {
    var a := Finish(n, api);
    var c' := Next(cfg, c, a);
    FinishToZero(cfg, c, n, api);
    OrphanStep(cfg, c, a, id);
    SameAnswer(cfg, c, c', c'.wakes, id);
    StuckIsGone(cfg, c.world.scale, c.wakes, n, id);
    if id != c.wakes[n].id { OtherWakeLives(cfg, c.world.scale, c.wakes, n, id); }
  }

  /** The same wakes are under way for the service. */
  ghost predicate SameWakes(wakes: map<string, WakeInProgress>, wakes': map<string, WakeInProgress>, id: string) {
    && (forall m | m in wakes && wakes[m].id == id :: m in wakes' && wakes'[m] == wakes[m])
    && (forall m | m in wakes' && wakes'[m].id == id :: m in wakes && wakes[m] == wakes'[m])
  }

  /** A service stays answered when only another port moved and its own wakes and entry did not. */
  lemma OtherStaysAnswered(cfg: Config, c: State, c': State, id: string, q: uint32)
    requires Answered(cfg, c, c.wakes, id) && id in c'.Services()
    requires c'.Services()[id].publishedPorts == c.Services()[id].publishedPorts
    requires ScaleRuns.Orphan(c'.world.scale, id) <==> ScaleRuns.Orphan(c.world.scale, id)
    requires AllKeepOthers(c.world.ports, c'.world.ports, q) && FirstPort(c.Services()[id]) != q
    requires SameWakes(c.wakes, c'.wakes, id)
    ensures Answered(cfg, c', c'.wakes, id)
  {
    if ArmedEverywhere(c.world.ports, id, FirstPort(c.Services()[id])) {
      StillArmed(c.world.ports, c'.world.ports, q, id, FirstPort(c.Services()[id]));
    }
  }

  // timeouts

  /** A failed timeout touches no service; a completed one takes its own to 0. */
  lemma ExpireServices(cfg: Config, c: State, ch: nat, api: TimeoutApi)
    requires Structure(cfg, c) && Enabled(cfg, c, Expire(ch, api))
    ensures var x, c' := c.world.scale.waiting[ch], Next(cfg, c, Expire(ch, api));
      && x in c.Services() && c'.wakes == c.wakes && c.Services()[x].replicated
      && c'.Services() ==
         if Completes(c.world, cfg.manager, cfg.others[cfg.manager], ch, api)
         then c.Services()[x := c.Services()[x].(replicas := 0)] else c.Services()
  {
  }

  lemma ExpireArmsExactly(cfg: Config, c: State, ch: nat, api: TimeoutApi)
    requires Structure(cfg, c) && Enabled(cfg, c, Expire(ch, api)) && HasPort(c.Services()[c.world.scale.waiting[ch]])
    ensures var x := c.world.scale.waiting[ch];
      ArmedEverywhere(Next(cfg, c, Expire(ch, api)).world.ports, x, FirstPort(c.Services()[x])) <==>
      ArmsAll(cfg, c, ch, api, x, FirstPort(c.Services()[x]))
  {
    var x := c.world.scale.waiting[ch];
    var port, ports' := FirstPort(c.Services()[x]), Next(cfg, c, Expire(ch, api)).world.ports;
    assert cfg.manager in c.world.ports;
    TimeoutPorts(cfg, c, ch, api, cfg.manager);
    forall n | n in c.world.ports
      ensures n in ports'
      ensures Armed(ports'[n], x, port) <==>
        ListensAt(cfg, c.world.scale, ch, api, n) || Armed(c.world.ports[n], x, port)
    {
      TimeoutPorts(cfg, c, ch, api, n);
      if ListensAt(cfg, c.world.scale, ch, api, n) {
        ExpireOwns(cfg, c, ch, api);
        assert NodeOwned(c.Services(), c.world.ports[n]);
        NodeListen(c.Services(), c.world.ports[n], x, port);
      }
    }
  }

  lemma CompletedArms(cfg: Config, c: State, ch: nat, api: TimeoutApi)
    requires Structure(cfg, c) && Enabled(cfg, c, Expire(ch, api))
    requires Completes(c.world, cfg.manager, cfg.others[cfg.manager], ch, api)
    ensures var id := c.world.scale.waiting[ch];
      && HasPort(c.Services()[id])
      && ArmedEverywhere(Next(cfg, c, Expire(ch, api)).world.ports, id, FirstPort(c.Services()[id]))
  {
    ExpireArmsExactly(cfg, c, ch, api);
    forall n | n in c.world.ports ensures ListensAt(cfg, c.world.scale, ch, api, n) {
      TimeoutPorts(cfg, c, ch, api, n);
    }
  }

  /** On an orphaned entry only the manager's wake is live. */
  lemma LiveOnOrphan(cfg: Config, s: ScaleState, wakes: map<string, WakeInProgress>, id: string)
    requires ScaleRuns.Orphan(s, id)
    ensures LiveWake(cfg, s, wakes, id) <==> ManagerWakes(cfg, wakes, id)
  {
  }

  lemma ExpireKeepsOwnExactly(cfg: Config, c: State, ch: nat, api: TimeoutApi)
    requires Structure(cfg, c) && Enabled(cfg, c, Expire(ch, api)) && NotLost(cfg, c, c.world.scale.waiting[ch])
    ensures NotLost(cfg, Next(cfg, c, Expire(ch, api)), c.world.scale.waiting[ch]) <==> Benign(cfg, c, Expire(ch, api))
  {
    var x, c' := c.world.scale.waiting[ch], Next(cfg, c, Expire(ch, api));
    ExpireServices(cfg, c, ch, api);
    if Completes(c.world, cfg.manager, cfg.others[cfg.manager], ch, api) {
      CompletedArms(cfg, c, ch, api);
    } else if AtZero(c, x) {
      ExpireArmsExactly(cfg, c, ch, api);
      OrphanStep(cfg, c, Expire(ch, api), x);
      LiveOnOrphan(cfg, c'.world.scale, c'.wakes, x);
    }
  }

  lemma ExpireKeepsNoneLostExactly(cfg: Config, c: State, ch: nat, api: TimeoutApi)
    requires Sound(cfg, c) && Enabled(cfg, c, Expire(ch, api))
    ensures NoneLost(cfg, Next(cfg, c, Expire(ch, api))) <==> Benign(cfg, c, Expire(ch, api))
  {
    var x, c' := c.world.scale.waiting[ch], Next(cfg, c, Expire(ch, api));
    ExpireServices(cfg, c, ch, api);
    hide Structure, Benign, Next, Answered;
    forall id | id in c'.Services()
      ensures NotLost(cfg, c', id) <==> (id == x ==> Benign(cfg, c, Expire(ch, api)))
    {
      assert NotLost(cfg, c, id);
      if id == x { ExpireKeepsOwnExactly(cfg, c, ch, api); } else { ExpireKeepsOther(cfg, c, ch, api, id); }
    }
    assert NotLost(cfg, c', x) <==> Benign(cfg, c, Expire(ch, api));
  }

  lemma ExpireKeepsOther(cfg: Config, c: State, ch: nat, api: TimeoutApi, id: string)
    requires Structure(cfg, c) && Enabled(cfg, c, Expire(ch, api)) && NotLost(cfg, c, id)
    requires id in c.Services() && id != c.world.scale.waiting[ch]
    ensures NotLost(cfg, Next(cfg, c, Expire(ch, api)), id)
  {
    var a, x := Expire(ch, api), c.world.scale.waiting[ch];
    var c' := Next(cfg, c, a);
    ExpireServices(cfg, c, ch, api);
    OrphanStep(cfg, c, a, id);
    PortsStep(cfg, c, a);
    if AtZero(c, id) {
      if ReachesListen(c.world.scale, ch, api) {
        OtherStaysAnswered(cfg, c, c', id, FirstPort(c.Services()[x]));
      } else {
        SameAnswer(cfg, c, c', c.wakes, id);
      }
    }
  }

  // packets and remove requests

  lemma PacketKeepsOther(cfg: Config, c: State, n: string, port: uint32, id: string)
    requires Structure(cfg, c) && Enabled(cfg, c, Packet(n, port)) && port in c.world.ports[n].services
    requires NotLost(cfg, c, id) && id != c.world.ports[n].services[port]
    ensures NotLost(cfg, Next(cfg, c, Packet(n, port)), id)
  {
    PortsStep(cfg, c, Packet(n, port));
    assert NodeOwned(c.Services(), c.world.ports[n]);
    assert Owns(c.Services(), c.world.ports[n].services[port], port);
    if AtZero(c, id) { OtherStaysAnswered(cfg, c, Next(cfg, c, Packet(n, port)), id, port); }
  }

  /** The packet's own service: its port is no longer armed here, and its wake counts if it can scale. */
  lemma PacketKeepsOwnExactly(cfg: Config, c: State, n: string, port: uint32)
    requires Structure(cfg, c) && Enabled(cfg, c, Packet(n, port)) && port in c.world.ports[n].services
    requires NotLost(cfg, c, c.world.ports[n].services[port])
    ensures NotLost(cfg, Next(cfg, c, Packet(n, port)), c.world.ports[n].services[port]) <==>
      Benign(cfg, c, Packet(n, port))
  {
    var id, c' := c.world.ports[n].services[port], Next(cfg, c, Packet(n, port));
    assert NodeOwned(c.Services(), c.world.ports[n]);
    assert Owns(c.Services(), id, port) && port !in c'.world.ports[n].services;
    assert !ArmedEverywhere(c'.world.ports, id, port) by { assert !Armed(c'.world.ports[n], id, port); }
    NewWakeLives(cfg, c.world.scale, c.wakes, n, c'.wakes[n]);
  }

  lemma NewWakeLives(
      cfg: Config, s: ScaleState, wakes: map<string, WakeInProgress>, n: string, w: WakeInProgress)
    requires n !in wakes
    ensures LiveWake(cfg, s, wakes[n := w], w.id) <==> LiveWake(cfg, s, wakes, w.id) || CanScale(cfg, s, n, w)
  {
    var wakes' := wakes[n := w];
    assert n in wakes' && wakes'[n] == w;
    assert forall m | m in wakes :: m in wakes' && wakes'[m] == wakes[m];
  }

  lemma PacketKeepsNoneLostExactly(cfg: Config, c: State, n: string, port: uint32)
    requires Sound(cfg, c) && Enabled(cfg, c, Packet(n, port))
    ensures NoneLost(cfg, Next(cfg, c, Packet(n, port))) <==> Benign(cfg, c, Packet(n, port))
  {
    if port in c.world.ports[n].services {
      var x, c' := c.world.ports[n].services[port], Next(cfg, c, Packet(n, port));
      assert NodeOwned(c.Services(), c.world.ports[n]);
      assert Owns(c.Services(), x, port);
      hide Structure, Benign, NotLost;
      forall id | id in c'.Services()
        ensures NotLost(cfg, c', id) <==> (id == x ==> Benign(cfg, c, Packet(n, port)))
      {
        assert NotLost(cfg, c, id);
        if id == x { PacketKeepsOwnExactly(cfg, c, n, port); } else { PacketKeepsOther(cfg, c, n, port, id); }
      }
      assert NotLost(cfg, c', x) <==> Benign(cfg, c, Packet(n, port));
    }
  }

  /** Sending the next remove request leaves all wakes as live as they were. */
  lemma RemoveNextLives(cfg: Config, c: State, n: string, arrives: bool, id: string)
    requires Enabled(cfg, c, RemoveNext(n, arrives))
    ensures LiveWake(cfg, c.world.scale, Next(cfg, c, RemoveNext(n, arrives)).wakes, id) <==>
      LiveWake(cfg, c.world.scale, c.wakes, id)
  {
    var wakes' := Next(cfg, c, RemoveNext(n, arrives)).wakes;
    assert wakes' == c.wakes[n := c.wakes[n].(todo := wakes'[n].todo)];
    assert forall m | m in c.wakes :: m in wakes' && wakes'[m] == c.wakes[m].(todo := wakes'[m].todo);
    assert forall m | m in wakes' :: m in c.wakes && wakes'[m] == c.wakes[m].(todo := wakes'[m].todo);
  }

  lemma RemoveNextKeepsOneExactly(cfg: Config, c: State, n: string, arrives: bool, id: string)
    requires Structure(cfg, c) && Enabled(cfg, c, RemoveNext(n, arrives)) && NotLost(cfg, c, id)
    ensures NotLost(cfg, Next(cfg, c, RemoveNext(n, arrives)), id) <==>
      (id == c.wakes[n].id ==> Benign(cfg, c, RemoveNext(n, arrives)))
  {
    var c', w := Next(cfg, c, RemoveNext(n, arrives)), c.wakes[n];
    assert Owns(c.Services(), w.id, w.port);
    RemoveNextLives(cfg, c, n, arrives, id);
    if arrives && w.todo[0] in c.world.ports && AtZero(c, id) {
      RemoveNextStep(cfg, c, n, arrives);
      if id != w.id {
        if ArmedEverywhere(c.world.ports, id, FirstPort(c.Services()[id])) {
          StillArmed(c.world.ports, c'.world.ports, w.port, id, FirstPort(c.Services()[id]));
        }
      } else {
        assert NodeOwned(c.Services(), c.world.ports[w.todo[0]]);
        NodeRemove(c.Services(), c.world.ports[w.todo[0]], w.port);
        assert !Armed(c'.world.ports[w.todo[0]], id, w.port);
      }
    }
  }

  lemma RemoveNextKeepsNoneLostExactly(cfg: Config, c: State, n: string, arrives: bool)
    requires Sound(cfg, c) && Enabled(cfg, c, RemoveNext(n, arrives))
    ensures NoneLost(cfg, Next(cfg, c, RemoveNext(n, arrives))) <==> Benign(cfg, c, RemoveNext(n, arrives))
  {
    var c', x := Next(cfg, c, RemoveNext(n, arrives)), c.wakes[n].id;
    assert Owns(c.Services(), x, c.wakes[n].port);
    hide Structure, Benign, NotLost;
    forall id | id in c'.Services()
      ensures NotLost(cfg, c', id) <==> (id == x ==> Benign(cfg, c, RemoveNext(n, arrives)))
    {
      assert NotLost(cfg, c, id);
      RemoveNextKeepsOneExactly(cfg, c, n, arrives, id);
    }
    assert NotLost(cfg, c', x) <==> Benign(cfg, c, RemoveNext(n, arrives));
  }

  /** A step loses no service's wake-up if and only if it is benign. */
  lemma StepKeepsSoundExactly(cfg: Config, c: State, a: Action)
    requires Sound(cfg, c) && Enabled(cfg, c, a)
    ensures Structure(cfg, Next(cfg, c, a))
    ensures Sound(cfg, Next(cfg, c, a)) <==> Benign(cfg, c, a)
  {
    StepKeepsStructure(cfg, c, a);
    match a
    case Ask(_, _, _) => AskKeepsNoneLostExactly(cfg, c, a);
    case Expire(ch, api) => ExpireKeepsNoneLostExactly(cfg, c, ch, api);
    case Packet(n, port) => PacketKeepsNoneLostExactly(cfg, c, n, port);
    case RemoveNext(n, arrives) => RemoveNextKeepsNoneLostExactly(cfg, c, n, arrives);
    case Finish(n, api) => FinishKeepsNoneLostExactly(cfg, c, n, api);
  }

  /** The two final scalings spelled out: from a sound state at 0 replicas the wake-up survives the
      manager's ScaleTo exactly if it succeeds, and a worker's request exactly if the service is
      inspected, not orphaned and scaled -- or else if something still answers. */
  lemma FinishKeepsWakeUpExactly(cfg: Config, c: State, n: string, api: Api)
    requires Sound(cfg, c) && Enabled(cfg, c, Finish(n, api)) && AtZero(c, c.wakes[n].id)
    ensures var id := c.wakes[n].id;
      Sound(cfg, Next(cfg, c, Finish(n, api))) <==>
        || (if n == cfg.manager then api.scale
            else api.inspect && api.scale && !ScaleRuns.Orphan(c.world.scale, id))
        || LiveWake(cfg, c.world.scale, c.wakes - {n}, id)
        || ArmedEverywhere(c.world.ports, id, c.wakes[n].port)
  {
    StepKeepsSoundExactly(cfg, c, Finish(n, api));
    assert Owns(c.Services(), c.wakes[n].id, c.wakes[n].port);
  }

  /** All services run, nothing is armed, nothing is in progress. */
  ghost predicate Init(cfg: Config, c: State) {
    && WellFormed(cfg) && c.world.ports == (map n | n in cfg.others :: NO_PORTS) && c.wakes == map[]
    && c.world.scale.ops == map[] && c.world.scale.waiting == map[]
    && DistinctPorts(c.Services()) && forall id | id in c.Services() :: c.Services()[id].replicas >= 1
  }

  ghost predicate StepAt(cfg: Config, cs: seq<State>, actions: seq<Action>, i: nat)
    requires |cs| == |actions| + 1 && i < |actions|
  {
    Enabled(cfg, cs[i], actions[i]) && cs[i + 1] == Next(cfg, cs[i], actions[i])
  }

  ghost predicate IsRun(cfg: Config, cs: seq<State>, actions: seq<Action>) {
    && |cs| == |actions| + 1 && Init(cfg, cs[0])
    && forall i {:trigger StepAt(cfg, cs, actions, i)} | 0 <= i < |actions| :: StepAt(cfg, cs, actions, i)
  }

  lemma InitIsSound(cfg: Config, c: State)
    requires Init(cfg, c)
    ensures Sound(cfg, c)
  {
    forall n | n in c.world.ports ensures NodeOwned(c.Services(), c.world.ports[n]) {
      assert c.world.ports[n] == NO_PORTS;
    }
  }

  lemma RunStep(cfg: Config, cs: seq<State>, actions: seq<Action>, i: nat)
    requires IsRun(cfg, cs, actions) && i < |actions|
    ensures Structure(cfg, cs[i]) ==> Structure(cfg, cs[i + 1])
    ensures Sound(cfg, cs[i]) ==> (Sound(cfg, cs[i + 1]) <==> Benign(cfg, cs[i], actions[i]))
  {
    hide Structure, NoneLost, Benign;
    assert StepAt(cfg, cs, actions, i);
    if Structure(cfg, cs[i]) { StepKeepsStructure(cfg, cs[i], actions[i]); }
    if Sound(cfg, cs[i]) { StepKeepsSoundExactly(cfg, cs[i], actions[i]); }
  }

  /** No lost wake-up, exactly. In every run, with wakes on all nodes interleaved with each other and
      with the manager and any call failing at any time, all services stay answered -- whoever has 0
      replicas has its port armed for it on every node or a wake under way that can still scale it
      -- if and only if every step is benign. */
  lemma NoLostWakeUp(cfg: Config, cs: seq<State>, actions: seq<Action>, i: nat)
    requires IsRun(cfg, cs, actions) && i <= |actions|
    ensures (forall k | 0 <= k <= i :: Sound(cfg, cs[k])) <==> (forall k | 0 <= k < i :: Benign(cfg, cs[k], actions[k]))
  {
    InitIsSound(cfg, cs[0]);
    hide Sound, Benign, StepAt;
    forall k | 0 <= k < i && Sound(cfg, cs[k])
      ensures Sound(cfg, cs[k + 1]) <==> Benign(cfg, cs[k], actions[k])
    {
      RunStep(cfg, cs, actions, k);
    }
    StepwiseExactly(cs, actions, c => Sound(cfg, c), (c, a) => Benign(cfg, c, a), 0, i);
  }

  /** The tables and the manager keep their structure in every run, benign or not. */
  lemma {:induction false} RunKeepsStructure(cfg: Config, cs: seq<State>, actions: seq<Action>, i: nat)
    requires IsRun(cfg, cs, actions) && i <= |actions|
    ensures Structure(cfg, cs[i])
  {
    hide Structure, StepAt;
    if i == 0 {
      InitIsSound(cfg, cs[0]);
    } else {
      RunKeepsStructure(cfg, cs, actions, i - 1);
      RunStep(cfg, cs, actions, i - 1);
    }
  }

  /** What `Sound` says of a service. */
  lemma SoundAnswers(cfg: Config, c: State, id: string)
    requires Sound(cfg, c) && AtZero(c, id)
    ensures HasPort(c.Services()[id])
    ensures
      ArmedEverywhere(c.world.ports, id, FirstPort(c.Services()[id])) || LiveWake(cfg, c.world.scale, c.wakes, id)
  {
    assert NotLost(cfg, c, id);
  }

  // ----- a wake-up lost for good -----

  /** Every node on which `port` is mapped is listed in `todo`. */
  ghost predicate MappedWithin(ports: map<string, Ports>, port: uint32, todo: seq<string>) {
    forall n | n in ports && port in ports[n].services :: n in todo
  }

  /** The service is at 0, its port is mapped nowhere, its keep-alive entry is orphaned and the
      manager has no wake for it. */
  ghost predicate GoneForGood(cfg: Config, c: State, id: string, port: uint32) {
    && Owns(c.Services(), id, port) && c.Services()[id].replicas == 0
    && ScaleRuns.Orphan(c.world.scale, id) && MappedWithin(c.world.ports, port, [])
    && !ManagerWakes(cfg, c.wakes, id)
  }

  lemma GoneIsNotSound(cfg: Config, c: State, id: string, port: uint32)
    requires Structure(cfg, c) && GoneForGood(cfg, c, id, port)
    ensures !Sound(cfg, c)
  {
    LiveOnOrphan(cfg, c.world.scale, c.wakes, id);
    assert cfg.manager in c.world.ports && !Armed(c.world.ports[cfg.manager], id, port);
    assert !NotLost(cfg, c, id);
  }

  /** Tables on which a port is mapped nowhere. */
  lemma StaysUnmapped(cfg: Config, c: State, a: Action, id: string, port: uint32)
    requires Structure(cfg, c) && Enabled(cfg, c, a) && GoneForGood(cfg, c, id, port)
    ensures MappedWithin(Next(cfg, c, a).world.ports, port, [])
  {
    PortsStep(cfg, c, a);
    var ports' := Next(cfg, c, a).world.ports;
    forall n | n in ports' ensures port !in ports'[n].services {
      assert n in c.world.ports && port !in c.world.ports[n].services;
      if a.Expire? {
        TimeoutPorts(cfg, c, a.channel, a.timeoutApi, n);
        ExpireOwnsOther(cfg, c, a.channel, id);
      } else if a.RemoveNext? && a.arrives && c.wakes[a.node].todo[0] in c.world.ports {
        assert NodeOwned(c.Services(), c.world.ports[c.wakes[a.node].todo[0]]);
        NodeRemove(c.Services(), c.world.ports[c.wakes[a.node].todo[0]], c.wakes[a.node].port);
      }
    }
  }

  /** No timer runs for an orphaned service. */
  lemma ExpireOwnsOther(cfg: Config, c: State, ch: nat, id: string)
    requires Structure(cfg, c) && ch in c.world.scale.waiting && ScaleRuns.Orphan(c.world.scale, id)
    ensures c.world.scale.waiting[ch] != id
  {
  }

  /** No step gives an orphaned service at 0 a replica, except the final scaling of a manager's wake. */
  lemma OrphanStaysAtZero(cfg: Config, c: State, a: Action, id: string)
    requires Structure(cfg, c) && Enabled(cfg, c, a) && ScaleRuns.Orphan(c.world.scale, id) && AtZero(c, id)
    requires c.Services()[id].replicated && !ManagerWakes(cfg, c.wakes, id)
    ensures var c' := Next(cfg, c, a);
      && AtZero(c', id) && ScaleRuns.Orphan(c'.world.scale, id)
  {
    OrphanStep(cfg, c, a, id);
    RefinesManager(cfg, c, a);
    var m := ManagerAction(cfg, c, a);
    if m.Some? {
      ScaleRuns.StepMovesReplicas(c.world.scale, m.value, id);
    }
  }

  /** An unmapped port starts no wake. */
  lemma NoNewManagerWake(cfg: Config, c: State, a: Action, id: string, port: uint32)
    requires Structure(cfg, c) && Enabled(cfg, c, a) && GoneForGood(cfg, c, id, port)
    ensures !ManagerWakes(cfg, Next(cfg, c, a).wakes, id)
  {
    if a.Packet? && a.port in c.world.ports[a.node].services {
      assert NodeOwned(c.Services(), c.world.ports[a.node]);
      assert Owns(c.Services(), c.world.ports[a.node].services[a.port], a.port);
    }
  }

  /** Once gone for good, a service stays so: no step whatsoever scales it again. */
  lemma StepKeepsGone(cfg: Config, c: State, a: Action, id: string, port: uint32)
    requires Structure(cfg, c) && Enabled(cfg, c, a) && GoneForGood(cfg, c, id, port)
    ensures GoneForGood(cfg, Next(cfg, c, a), id, port)
  {
    StaysUnmapped(cfg, c, a, id, port);
    OrphanStaysAtZero(cfg, c, a, id);
    ManagerStep(cfg, c, a);
    NoNewManagerWake(cfg, c, a, id, port);
    hide Next, Enabled, ManagerWakes, MappedWithin;
  }

  lemma {:induction false} GoneStaysGone(
      cfg: Config, cs: seq<State>, actions: seq<Action>, i: nat, j: nat, id: string, port: uint32)
    requires IsRun(cfg, cs, actions) && i <= j <= |actions| && GoneForGood(cfg, cs[i], id, port)
    ensures GoneForGood(cfg, cs[j], id, port) && !Sound(cfg, cs[j])
  {
    hide Structure, GoneForGood, Sound;
    RunKeepsStructure(cfg, cs, actions, j);
    if i < j {
      GoneStaysGone(cfg, cs, actions, i, j - 1, id, port);
      RunKeepsStructure(cfg, cs, actions, j - 1);
      assert StepAt(cfg, cs, actions, j - 1);
      StepKeepsGone(cfg, cs[j - 1], actions[j - 1], id, port);
    }
    GoneIsNotSound(cfg, cs[j], id, port);
  }

  // ----- every wake can complete -----

  /** The rest of a wake's broadcast, with every request arriving. */
  function Drain(cfg: Config, c: State, n: string): (d: State)
    requires n in c.wakes
    ensures d.world.scale == c.world.scale && d.wakes == c.wakes[n := c.wakes[n].(todo := [])]
    decreases |c.wakes[n].todo|
  {
    if c.wakes[n].todo == [] then c else Drain(cfg, Next(cfg, c, RemoveNext(n, true)), n)
  }

  /** The rest of a wake: its broadcast, then its final scaling. */
  function Complete(cfg: Config, c: State, n: string): State
    requires n in c.wakes && !c.wakes[n].stuck
    requires c.wakes[n].id in c.Services() && c.Services()[c.wakes[n].id].replicated
  {
    Next(cfg, Drain(cfg, c, n), Finish(n, ALL_SUCCEED))
  }

  lemma {:induction false} DrainRemoves(cfg: Config, c: State, n: string, m: string)
    requires n in c.wakes && m in c.world.ports
    ensures var d := Drain(cfg, c, n);
      && d.world.ports.Keys == c.world.ports.Keys
      && d.world.ports[m] ==
         if m in c.wakes[n].todo then Remove(c.world.ports[m], c.wakes[n].port).0 else c.world.ports[m]
    decreases |c.wakes[n].todo|
  {
    var todo := c.wakes[n].todo;
    if todo != [] {
      DrainRemoves(cfg, Next(cfg, c, RemoveNext(n, true)), n, m);
      assert todo == [todo[0]] + todo[1..];
    }
  }

  lemma {:induction false} DrainKeepsSound(cfg: Config, c: State, n: string)
    requires Structure(cfg, c) && n in c.wakes
    ensures Structure(cfg, Drain(cfg, c, n))
    ensures Sound(cfg, c) && CanScale(cfg, c.world.scale, n, c.wakes[n]) ==> Sound(cfg, Drain(cfg, c, n))
    decreases |c.wakes[n].todo|
  {
    if c.wakes[n].todo != [] {
      StepKeepsStructure(cfg, c, RemoveNext(n, true));
      if Sound(cfg, c) { StepKeepsSoundExactly(cfg, c, RemoveNext(n, true)); }
      DrainKeepsSound(cfg, Next(cfg, c, RemoveNext(n, true)), n);
    }
  }

  /** A final scaling whose calls succeed leaves a replica, unless it blocks. */
  lemma FinishRevivesExactly(cfg: Config, c: State, n: string)
    requires Structure(cfg, c) && Enabled(cfg, c, Finish(n, ALL_SUCCEED))
    requires c.Services()[c.wakes[n].id].replicas < ScaleRuns.FULL
    ensures var id, c' := c.wakes[n].id, Next(cfg, c, Finish(n, ALL_SUCCEED));
      && Structure(cfg, c')
      && (Sound(cfg, c) && CanScale(cfg, c.world.scale, n, c.wakes[n]) ==> Sound(cfg, c'))
      && (n !in c'.wakes <==> CanScale(cfg, c.world.scale, n, c.wakes[n]))
      && (n !in c'.wakes ==> c'.wakes == c.wakes - {n} && id in c'.Services() && c'.Services()[id].replicas >= 1)
  {
    StepKeepsStructure(cfg, c, Finish(n, ALL_SUCCEED));
    if Sound(cfg, c) { StepKeepsSoundExactly(cfg, c, Finish(n, ALL_SUCCEED)); }
    FinishBlocksExactly(cfg, c, n, ALL_SUCCEED);
    FinishToZero(cfg, c, n, ALL_SUCCEED);
  }

  /** Run to its end with every call succeeding, a wake leaves its service with a replica and its own
      listener free exactly if it can scale: it is not a worker's on an entry a failed timeout has
      orphaned. */
  lemma WakeCompletesExactly(cfg: Config, c: State, n: string)
    requires Structure(cfg, c) && n in c.wakes && !c.wakes[n].stuck
    requires c.Services()[c.wakes[n].id].replicas < ScaleRuns.FULL
    ensures var id, d := c.wakes[n].id, Complete(cfg, c, n);
      && Structure(cfg, d)
      && (Sound(cfg, c) && CanScale(cfg, c.world.scale, n, c.wakes[n]) ==> Sound(cfg, d))
      && (n !in d.wakes <==> CanScale(cfg, c.world.scale, n, c.wakes[n]))
      && (n !in d.wakes ==> d.wakes == c.wakes - {n} && id in d.Services() && d.Services()[id].replicas >= 1)
  {
    var d := Drain(cfg, c, n);
    assert Owns(c.Services(), c.wakes[n].id, c.wakes[n].port);
    assert d.wakes - {n} == c.wakes - {n};
    DrainKeepsSound(cfg, c, n);
    hide Sound, Structure, Next, Drain, FinalScale;
    FinishRevivesExactly(cfg, d, n);
  }

  /** No count is about to wrap. */
  ghost predicate NoneFull(services: map<string, Service>) {
    forall id | id in services :: services[id].replicas < ScaleRuns.FULL
  }

  /** A request to a sleeping service is served by the system's own steps. Either a wake under way can
      still bring the service up, and does, or a packet at any node whose wakes can scale -- once that
      node's listener has finished what it is doing -- starts a wake that does. */
  lemma PacketIsServed(cfg: Config, c: State, id: string, n: string)
    requires Sound(cfg, c) && NoneFull(c.Services()) && AtZero(c, id) && n in cfg.others
    requires n == cfg.manager || !ScaleRuns.Orphan(c.world.scale, id)
    requires n in c.wakes ==> CanScale(cfg, c.world.scale, n, c.wakes[n])
    ensures HasPort(c.Services()[id])
    ensures
      || (exists m | m in c.wakes && c.wakes[m].id == id && CanScale(cfg, c.world.scale, m, c.wakes[m]) ::
            Complete(cfg, c, m).Services()[id].replicas >= 1)
      || (var c1 := if n in c.wakes then Complete(cfg, c, n) else c;
          && Enabled(cfg, c1, Packet(n, FirstPort(c.Services()[id])))
          && var c2 := Next(cfg, c1, Packet(n, FirstPort(c.Services()[id])));
          && n in c2.wakes && c2.wakes[n].id == id && !c2.wakes[n].stuck
          && id in c2.Services() && c2.Services()[id].replicated
          && id in Complete(cfg, c2, n).Services() && Complete(cfg, c2, n).Services()[id].replicas >= 1)
  {
    SoundAnswers(cfg, c, id);
    if LiveWake(cfg, c.world.scale, c.wakes, id) {
      var m :| m in c.wakes && c.wakes[m].id == id && CanScale(cfg, c.world.scale, m, c.wakes[m]);
      WakeCompletesExactly(cfg, c, m);
    } else {
      var port := FirstPort(c.Services()[id]);
      var c1 := if n in c.wakes then Complete(cfg, c, n) else c;
      assert Armed(c.world.ports[n], id, port);
      if n in c.wakes { OtherWakeKeepsArmed(cfg, c, n, id); }
      PacketRevives(cfg, c1, n, id, port);
    }
  }

  /** A packet at an idle node where the port is armed. */
  lemma PacketRevives(cfg: Config, c: State, n: string, id: string, port: uint32)
    requires Structure(cfg, c) && Enabled(cfg, c, Packet(n, port)) && Armed(c.world.ports[n], id, port) && AtZero(c, id)
    requires n == cfg.manager || !ScaleRuns.Orphan(c.world.scale, id)
    ensures var c' := Next(cfg, c, Packet(n, port));
      && n in c'.wakes && c'.wakes[n].id == id && !c'.wakes[n].stuck
      && id in c'.Services() && c'.Services()[id].replicated
      && id in Complete(cfg, c', n).Services() && Complete(cfg, c', n).Services()[id].replicas >= 1
  {
    assert NodeOwned(c.Services(), c.world.ports[n]);
    StepKeepsStructure(cfg, c, Packet(n, port));
    WakeCompletesExactly(cfg, Next(cfg, c, Packet(n, port)), n);
  }

  /** A final scaling touches no other service and no other entry. */
  lemma FinishTouchesOne(cfg: Config, c: State, n: string, id: string)
    requires ScaleRuns.Inv(c.world.scale) && Enabled(cfg, c, Finish(n, ALL_SUCCEED))
    requires id in c.Services() && c.wakes[n].id != id
    ensures var d := Next(cfg, c, Finish(n, ALL_SUCCEED));
      && id in d.Services() && d.Services()[id] == c.Services()[id] && d.world.ports == c.world.ports
      && (ScaleRuns.Orphan(d.world.scale, id) <==> ScaleRuns.Orphan(c.world.scale, id))
  {
    FinishToZero(cfg, c, n, ALL_SUCCEED);
    OrphanStep(cfg, c, Finish(n, ALL_SUCCEED), id);
  }

  /** A wake for another service completes without disarming this one. */
  lemma OtherWakeKeepsArmed(cfg: Config, c: State, n: string, id: string)
    requires Structure(cfg, c) && NoneFull(c.Services()) && n in c.wakes && c.wakes[n].id != id
    requires CanScale(cfg, c.world.scale, n, c.wakes[n])
    requires id in c.Services() && HasPort(c.Services()[id]) && Armed(c.world.ports[n], id, FirstPort(c.Services()[id]))
    ensures var d := Complete(cfg, c, n);
      && Structure(cfg, d) && n !in d.wakes && Armed(d.world.ports[n], id, FirstPort(c.Services()[id]))
      && id in d.Services() && d.Services()[id] == c.Services()[id]
      && (ScaleRuns.Orphan(d.world.scale, id) <==> ScaleRuns.Orphan(c.world.scale, id))
  {
    var d := Drain(cfg, c, n);
    DrainRemoves(cfg, c, n, n);
    assert NodeOwned(c.Services(), c.world.ports[n]);
    NodeRemove(c.Services(), c.world.ports[n], c.wakes[n].port);
    WakeCompletesExactly(cfg, c, n);
    FinishTouchesOne(cfg, d, n, id);
  }

  /** The broadcast of a wake of which `reach` requests get through before one fails. */
  function DrainUpTo(cfg: Config, c: State, n: string, reach: nat): (d: State)
    requires n in c.wakes
    ensures d.world.scale == c.world.scale && d.wakes == c.wakes[n := c.wakes[n].(todo := [])]
    decreases |c.wakes[n].todo|
  {
    if c.wakes[n].todo == [] then c
    else if reach == 0 then Next(cfg, c, RemoveNext(n, false))
    else DrainUpTo(cfg, Next(cfg, c, RemoveNext(n, true)), n, reach - 1)
  }

  /** It reaches the first `reach` nodes it had to tell. */
  lemma {:induction false} DrainUpToRemoves(cfg: Config, c: State, n: string, reach: nat, m: string)
    requires n in c.wakes && m in c.world.ports
    ensures var d, todo := DrainUpTo(cfg, c, n, reach), c.wakes[n].todo;
      && d.world.ports.Keys == c.world.ports.Keys
      && d.world.ports[m] ==
         if exists i | 0 <= i < |todo| && i < reach :: todo[i] == m
         then Remove(c.world.ports[m], c.wakes[n].port).0 else c.world.ports[m]
    decreases |c.wakes[n].todo|
  {
    var todo := c.wakes[n].todo;
    if todo != [] && reach > 0 {
      var c1 := Next(cfg, c, RemoveNext(n, true));
      DrainUpToRemoves(cfg, c1, n, reach - 1, m);
      RemoveTwice(c.world.ports[m], c.wakes[n].port);
      var rest := todo[1..];
      assert (exists i | 0 <= i < |todo| && i < reach :: todo[i] == m) <==>
        todo[0] == m || exists i | 0 <= i < |rest| && i < reach - 1 :: rest[i] == m by {
        forall i | 0 <= i < |rest| ensures rest[i] == todo[i + 1] {}
        if i :| 0 < i < |todo| && i < reach && todo[i] == m { assert rest[i - 1] == m; }
      }
    }
  }

  lemma RemoveTwice(p: Ports, port: uint32)
    ensures Remove(Remove(p, port).0, port).0 == Remove(p, port).0
  {
  }

  // ----- a wake as a whole -----

  /** A packet and all that its wake does, with every call succeeding. */
  function WholeWake(cfg: Config, c: State, n: string, port: uint32): State
    requires Enabled(cfg, c, Packet(n, port)) && port in c.world.ports[n].services
    requires Owns(c.Services(), c.world.ports[n].services[port], port)
  {
    Complete(cfg, Next(cfg, c, Packet(n, port)), n)
  }

  /** The whole wake, part by part. A blocked `over` leaves its wake behind. */
  lemma WholeWakeParts(cfg: Config, c: State, n: string, port: uint32)
    requires Enabled(cfg, c, Packet(n, port)) && port in c.world.ports[n].services
    requires Owns(c.Services(), c.world.ports[n].services[port], port)
    ensures var x, ports := c.world.ports[n].services[port], Drain(cfg, Next(cfg, c, Packet(n, port)), n).world.ports;
      var (s, reply) := FinalScale(cfg, c.world.scale, n, x, ALL_SUCCEED);
      WholeWake(cfg, c, n, port) ==
        State(World(s, ports), if reply == Blocked then c.wakes[n := WakeInProgress(x, port, [], true)] else c.wakes)
  {
    var c1 := Next(cfg, c, Packet(n, port));
    var w := WakeInProgress(c1.wakes[n].id, port, [], false);
    assert c1.wakes[n := c1.wakes[n].(todo := [])] == c.wakes[n := w];
    assert c.wakes[n := w] - {n} == c.wakes;
    assert c.wakes[n := w][n := w.(stuck := true)] == c.wakes[n := w.(stuck := true)];
  }

  /** ... and its port is mapped on no node any more. */
  lemma WholeWakeUnmaps(cfg: Config, c: State, n: string, port: uint32)
    requires Structure(cfg, c) && Enabled(cfg, c, Packet(n, port)) && port in c.world.ports[n].services
    requires Owns(c.Services(), c.world.ports[n].services[port], port)
    ensures MappedWithin(WholeWake(cfg, c, n, port).world.ports, port, [])
  {
    WholeWakeParts(cfg, c, n, port);
    var c1 := Next(cfg, c, Packet(n, port));
    assert ReachesAll(cfg, n) && n in c.world.ports;
    DrainRemoves(cfg, c1, n, n);
    var ports := Drain(cfg, c1, n).world.ports;
    forall m | m in ports ensures port !in ports[m].services {
      assert NodeOwned(c.Services(), c.world.ports[m]);
      NodeRemove(c.Services(), c.world.ports[m], port);
      DrainRemoves(cfg, c1, n, m);
    }
  }

  // ----- building runs -----

  lemma Extended(cfg: Config, cs: seq<State>, actions: seq<Action>, a: Action)
    returns (cs': seq<State>, actions': seq<Action>)
    requires IsRun(cfg, cs, actions) && Enabled(cfg, Last(cs), a)
    ensures IsRun(cfg, cs', actions') && Last(cs') == Next(cfg, Last(cs), a) && cs'[0] == cs[0]
  {
    cs', actions' := cs + [Next(cfg, Last(cs), a)], actions + [a];
    hide Next, Enabled, Init;
    forall i | 0 <= i < |actions'| ensures StepAt(cfg, cs', actions', i) {
      if i < |actions| { assert StepAt(cfg, cs, actions, i); }
    }
  }

  /** All of a wake's remove requests arrive. */
  lemma {:induction false} DrainRun(cfg: Config, cs: seq<State>, actions: seq<Action>, n: string)
    returns (cs': seq<State>, actions': seq<Action>)
    requires IsRun(cfg, cs, actions) && n in Last(cs).wakes
    ensures IsRun(cfg, cs', actions') && Last(cs') == Drain(cfg, Last(cs), n) && cs'[0] == cs[0]
    decreases |Last(cs).wakes[n].todo|
  {
    cs', actions' := cs, actions;
    if Last(cs).wakes[n].todo != [] {
      cs', actions' := Extended(cfg, cs, actions, RemoveNext(n, true));
      cs', actions' := DrainRun(cfg, cs', actions', n);
    }
  }

  /** All listen requests and the scaling of a timeout succeed. */
  function AllReached(cfg: Config): TimeoutApi
    requires cfg.manager in cfg.others
  {
    TimeoutApi(true, |cfg.others[cfg.manager]|, true)
  }

  lemma ReachedCompletes(cfg: Config, c: State, ch: nat)
    requires Structure(cfg, c) && ch in c.world.scale.waiting && cfg.manager in c.world.ports
    requires var x := c.world.scale.waiting[ch]; x in c.Services() && HasPort(c.Services()[x])
    ensures Completes(c.world, cfg.manager, cfg.others[cfg.manager], ch, AllReached(cfg))
  {
    var x := c.world.scale.waiting[ch];
    assert NodeOwned(c.Services(), c.world.ports[cfg.manager]);
    ListenAccepted(c.Services(), c.world.ports[cfg.manager], x, FirstPort(c.Services()[x]));
  }

  /** A completed timeout leaves its service asleep, with its port armed and its entry gone. */
  lemma ExpireSleeps(cfg: Config, c: State, ch: nat, api: TimeoutApi)
    requires Structure(cfg, c) && Enabled(cfg, c, Expire(ch, api))
    requires Completes(c.world, cfg.manager, cfg.others[cfg.manager], ch, api)
    ensures var x, c' := c.world.scale.waiting[ch], Next(cfg, c, Expire(ch, api));
      && x in c.Services() && HasPort(c.Services()[x]) && c.Services()[x].replicated
      && c'.wakes == c.wakes && c'.Services() == c.Services()[x := c.Services()[x].(replicas := 0)]
      && ArmedEverywhere(c'.world.ports, x, FirstPort(c.Services()[x]))
      && x !in c'.world.scale.ops
  {
    ExpireServices(cfg, c, ch, api);
    CompletedArms(cfg, c, ch, api);
  }

  /** A replicated service with a published port and `replicas` replicas, no keep-alive entry. */
  ghost predicate Calm(c: State, id: string, port: uint32, replicas: uint64) {
    Owns(c.Services(), id, port) && c.Services()[id].replicas == replicas && id !in c.world.scale.ops
  }

  /** Asked under at its last replica, a service whose timeout completes sleeps with its port armed. */
  lemma SleepSteps(cfg: Config, c: State, id: string, port: uint32)
    requires Structure(cfg, c) && Calm(c, id, port, 1)
    ensures var c1 := Next(cfg, c, Ask(id, "under", ALL_SUCCEED));
      var expire := Expire(c.world.scale.next, AllReached(cfg));
      && Enabled(cfg, c1, expire)
      && var c2 := Next(cfg, c1, expire);
      && Calm(c2, id, port, 0) && c2.wakes == c.wakes && ArmedEverywhere(c2.world.ports, id, port)
  {
    var ch, c1 := c.world.scale.next, Next(cfg, c, Ask(id, "under", ALL_SUCCEED));
    StepKeepsStructure(cfg, c, Ask(id, "under", ALL_SUCCEED));
    ReachedCompletes(cfg, c1, ch);
    ExpireSleeps(cfg, c1, ch, AllReached(cfg));
  }

  lemma SleepRun(cfg: Config, cs: seq<State>, actions: seq<Action>, id: string, port: uint32)
    returns (cs': seq<State>, actions': seq<Action>)
    requires IsRun(cfg, cs, actions) && Calm(Last(cs), id, port, 1)
    ensures IsRun(cfg, cs', actions') && cs'[0] == cs[0]
    ensures Calm(Last(cs'), id, port, 0) && Last(cs').wakes == Last(cs).wakes
    ensures ArmedEverywhere(Last(cs').world.ports, id, port)
  {
    RunKeepsStructure(cfg, cs, actions, |actions|);
    SleepSteps(cfg, Last(cs), id, port);
    var ch := Last(cs).world.scale.next;
    cs', actions' := Extended(cfg, cs, actions, Ask(id, "under", ALL_SUCCEED));
    cs', actions' := Extended(cfg, cs', actions', Expire(ch, AllReached(cfg)));
  }

  // ----- a run to a wake-up lost for good -----

  /** Nothing of a timeout succeeds. */
  const NOTHING: TimeoutApi := TimeoutApi(false, 0, false)

  /** Asked under while it sleeps, a service gets a keep-alive entry that a failing timeout orphans. */
  lemma OrphanSteps(cfg: Config, c: State, id: string, port: uint32)
    requires Structure(cfg, c) && Calm(c, id, port, 0)
    ensures var c1 := Next(cfg, c, Ask(id, "under", ALL_SUCCEED));
      var expire := Expire(c.world.scale.next, NOTHING);
      && Enabled(cfg, c1, expire)
      && var c2 := Next(cfg, c1, expire);
      && c2.Services() == c.Services() && c2.wakes == c.wakes && c2.world.ports == c.world.ports
      && ScaleRuns.Orphan(c2.world.scale, id)
  {
  }

  lemma OrphanRun(cfg: Config, cs: seq<State>, actions: seq<Action>, id: string, port: uint32)
    returns (cs': seq<State>, actions': seq<Action>)
    requires IsRun(cfg, cs, actions) && Calm(Last(cs), id, port, 0)
    ensures IsRun(cfg, cs', actions') && cs'[0] == cs[0] && ScaleRuns.Orphan(Last(cs').world.scale, id)
    ensures Last(cs').Services() == Last(cs).Services() && Last(cs').wakes == Last(cs).wakes
    ensures Last(cs').world.ports == Last(cs).world.ports
  {
    RunKeepsStructure(cfg, cs, actions, |actions|);
    OrphanSteps(cfg, Last(cs), id, port);
    var ch := Last(cs).world.scale.next;
    hide Next, IsRun, Structure;
    cs', actions' := Extended(cfg, cs, actions, Ask(id, "under", ALL_SUCCEED));
    cs', actions' := Extended(cfg, cs', actions', Expire(ch, NOTHING));
  }

  /** A worker's whole wake for an orphaned service at 0 unmaps its port everywhere and gets stuck. */
  lemma OrphanWakeIsGone(cfg: Config, c: State, id: string, port: uint32, w: string)
    requires Structure(cfg, c) && Enabled(cfg, c, Packet(w, port)) && Armed(c.world.ports[w], id, port)
    requires Owns(c.Services(), id, port) && AtZero(c, id) && ScaleRuns.Orphan(c.world.scale, id)
    requires c.wakes == map[] && w != cfg.manager
    ensures GoneForGood(cfg, WholeWake(cfg, c, w, port), id, port)
    ensures WholeWake(cfg, c, w, port).wakes == map[w := WakeInProgress(id, port, [], true)]
  {
    WholeWakeParts(cfg, c, w, port);
    WholeWakeUnmaps(cfg, c, w, port);
  }

  /** A wake-up can be lost for good. From any initial state with a service at one replica and a
      worker: the service goes to sleep, is asked under again, and the timeout of that request fails;
      the first packet at the worker then disarms the port on all nodes, and its `over` blocks. */
  lemma WakeUpLostForGood(cfg: Config, c: State, id: string, port: uint32, w: string)
    returns (cs: seq<State>, actions: seq<Action>)
    requires Init(cfg, c) && Owns(c.Services(), id, port) && c.Services()[id].replicas == 1
    requires w in cfg.others && w != cfg.manager
    ensures IsRun(cfg, cs, actions) && cs[0] == c && GoneForGood(cfg, Last(cs), id, port)
    ensures Last(cs).wakes == map[w := WakeInProgress(id, port, [], true)]
  {
    cs, actions := [c], [];
    cs, actions := SleepRun(cfg, cs, actions, id, port);
    cs, actions := OrphanRun(cfg, cs, actions, id, port);
    RunKeepsStructure(cfg, cs, actions, |actions|);
    assert Armed(Last(cs).world.ports[w], id, port);
    OrphanWakeIsGone(cfg, Last(cs), id, port, w);
    cs, actions := WholeWakeRun(cfg, cs, actions, w, port);
  }

  /** A whole wake as steps of a run. */
  lemma WholeWakeRun(cfg: Config, cs: seq<State>, actions: seq<Action>, n: string, port: uint32)
    returns (cs': seq<State>, actions': seq<Action>)
    requires IsRun(cfg, cs, actions) && Enabled(cfg, Last(cs), Packet(n, port))
    requires port in Last(cs).world.ports[n].services
    requires Owns(Last(cs).Services(), Last(cs).world.ports[n].services[port], port)
    ensures IsRun(cfg, cs', actions') && cs'[0] == cs[0] && Last(cs') == WholeWake(cfg, Last(cs), n, port)
  {
    cs', actions' := Extended(cfg, cs, actions, Packet(n, port));
    cs', actions' := DrainRun(cfg, cs', actions', n);
    cs', actions' := Extended(cfg, cs', actions', Finish(n, ALL_SUCCEED));
  }

  // ----- the configuration -----

  function HostNames(nodes: seq<SwarmNode>): seq<string> {
    seq(|nodes|, i requires 0 <= i < |nodes| => nodes[i].hostname)
  }

  /** Built by every node from one configuration, as CreateSwarmNodeInfo builds it, the broadcast
      lists reach everybody; exactly the workers also list themselves. */
  lemma ConfiguredClusterIsWellFormed(
      cfg: Config, infos: map<string, seq<SwarmNode>>, managers: map<string, string>, workers: map<string, string>)
    requires cfg.manager in managers && cfg.others.Keys == managers.Keys + workers.Keys && infos.Keys == cfg.others.Keys
    requires forall n | n in cfg.others ::
      Configured(infos[n], n, managers, workers) && cfg.others[n] == HostNames(infos[n])
    ensures WellFormed(cfg)
    ensures forall n | n in cfg.others :: n in cfg.others[n] <==> n in workers
  {
    forall n | n in cfg.others
      ensures ReachesAll(cfg, n) && (n in cfg.others[n] <==> n in workers)
    {
      forall m ensures m in cfg.others[n] <==> m in managers.Keys - {n} + workers.Keys {
        ConfiguredNodes(infos[n], n, managers, workers, m);
        HostNamesHas(infos[n], m);
      }
    }
  }

  lemma HostNamesHas(nodes: seq<SwarmNode>, h: string)
    ensures h in HostNames(nodes) <==> HasHost(nodes, h)
  {
    if HasHost(nodes, h) {
      var i :| 0 <= i < |nodes| && nodes[i].hostname == h;
      assert HostNames(nodes)[i] == h;
    }
  }
}
