/** Replicas, keep-alive entries, waiting goroutines and placement pins on the manager
    (autoscaler/scale/scale.go). */
module Scale {
  import opened Prelude
  import opened PortListener
  import opened Server

  /** A Swarm service: `handler` is its autoscaler.handlerNode label, `[]` stands for no constraints. */
  datatype Service = Service(
    replicated: bool,
    replicas: uint64,
    handler: Option<string>,
    constraints: seq<string>,
    publishedPorts: seq<uint32>)

  function PinTo(host: string): seq<string> {
    ["node.hostname==" + host]
  }

  // ----- what a placement constraint means to Swarm, as far as host names go -----

  /** `node.hostname==x` admits host x alone, `node.hostname!=x` every other host; constraints on
      anything else say nothing about host names. */
  predicate Admits(constraint: string, host: string) {
    var equal, unequal := "node.hostname==", "node.hostname!=";
    if equal <= constraint then constraint[|equal|..] == host
    else if unequal <= constraint then constraint[|unequal|..] != host
    else true
  }

  /** All constraints of a service must admit a host. */
  predicate MayRunOn(svc: Service, host: string) {
    forall i | 0 <= i < |svc.constraints| :: Admits(svc.constraints[i], host)
  }

  /** The service may run on `host` and nowhere else. */
  ghost predicate PinnedTo(svc: Service, host: string) {
    forall h: string :: MayRunOn(svc, h) <==> h == host
  }

  /** `ops` is keepAliveOps, with channels named by number; `waiting` holds the keep-alive
      goroutines, each blocked on its own channel. */
  datatype ScaleState = ScaleState(
    services: map<string, Service>,
    ops: map<string, nat>,
    waiting: map<nat, string>,
    next: nat)

  /** Which Docker API calls of a request succeed: the first inspection, the constraint update, the scaling. */
  datatype Api = Api(inspect: bool, pin: bool, scale: bool)

  const ALL_SUCCEED: Api := Api(true, true, true)

  /** `Blocked`: the handler is stuck sending to a channel nobody receives from. */
  datatype Reply = Done | Failed | Blocked

  function Next64(x: uint64): uint64 {
    if x == 0xFFFF_FFFF_FFFF_FFFF then 0 else x + 1
  }

  function WithService(s: ScaleState, id: string, svc: Service): ScaleState {
    s.(services := s.services[id := svc])
  }

  function Constrained(svc: Service, add: bool): Service {
    match svc.handler
    case None => svc
    case Some(host) => svc.(constraints := if add then PinTo(host) else [])
  }

  /** Where a service may run depends on its constraints alone. */
  lemma SamePlacement(a: Service, b: Service)
    requires a.constraints == b.constraints
    ensures forall h: string :: MayRunOn(a, h) <==> MayRunOn(b, h)
    ensures forall h: string :: PinnedTo(a, h) <==> PinnedTo(b, h)
  {
    forall h: string ensures MayRunOn(a, h) <==> MayRunOn(b, h) {}
  }

  /** Adding the constraint pins a labelled service to its handler node, clearing it lets the service
      run anywhere; either way all earlier constraints are gone. Nothing else about a service changes,
      and without the label nothing at all. */
  lemma ConstrainedPlacement(svc: Service, add: bool)
    ensures Constrained(svc, add) == svc.(constraints := Constrained(svc, add).constraints)
    ensures svc.handler.None? ==> Constrained(svc, add) == svc
    ensures svc.handler.Some? ==>
      forall h: string :: MayRunOn(Constrained(svc, add), h) <==> (add ==> h == svc.handler.value)
    ensures svc.handler.Some? && add ==> PinnedTo(Constrained(svc, add), svc.handler.value)
    ensures svc.handler.Some? && !add ==> !PinnedTo(Constrained(svc, add), svc.handler.value)
    ensures svc.handler.Some? ==> |Constrained(svc, add).constraints| == if add then 1 else 0
  {
    var after := Constrained(svc, add);
    if svc.handler.Some? {
      var host := svc.handler.value;
      if add {
        assert after.constraints == ["node.hostname==" + host];
        assert after.constraints[0][|"node.hostname=="|..] == host;
        forall h: string ensures MayRunOn(after, h) <==> h == host {
          assert MayRunOn(after, h) <==> Admits(after.constraints[0], h);
        }
      } else {
        assert MayRunOn(after, host + "x") && host + "x" != host;
      }
    }
  }

  /** Without the label no API call is made, so nothing can fail. */
  predicate ConstraintFails(svc: Service, api: Api) {
    svc.handler.Some? && !api.pin
  }

  function Scaled(s: ScaleState, id: string, replicas: uint64, succeeds: bool): (ScaleState, Reply) {
    if !succeeds || id !in s.services then (s, Failed)
    else (WithService(s, id, s.services[id].(replicas := replicas)), Done)
  }

  /** The state in which an `over` request tries to cancel a keep-alive operation. */
  function BeforeCancel(s: ScaleState, id: string): ScaleState
    requires id in s.services
  {
    var svc := s.services[id];
    if svc.replicas == 1 then WithService(s, id, Constrained(svc, false)) else s
  }

  function Over(s: ScaleState, id: string, api: Api): (ScaleState, Reply)
    requires id in s.services
  {
    var svc := s.services[id];
    if svc.replicas == 1 && ConstraintFails(svc, api) then (s, Failed)
    else
      var u := BeforeCancel(s, id);
      if id in u.ops && u.ops[id] !in u.waiting then (u, Blocked)
      else
        var cancelled := if id in u.ops then u.(ops := u.ops - {id}, waiting := u.waiting - {u.ops[id]}) else u;
        Scaled(cancelled, id, Next64(svc.replicas), api.scale)
  }

  function Under(s: ScaleState, id: string, api: Api): (ScaleState, Reply)
    requires id in s.services
  {
    var svc := s.services[id];
    if svc.replicas > 1 then
      if svc.replicas == 2 && ConstraintFails(svc, api) then (s, Failed)
      else
        var u := if svc.replicas == 2 then WithService(s, id, Constrained(svc, true)) else s;
        Scaled(u, id, svc.replicas - 1, api.scale)
    else if id in s.ops then (s, Done)
    else (s.(ops := s.ops[id := s.next], waiting := s.waiting[s.next := id], next := s.next + 1), Done)
  }

  /** ChangeServiceReplicas on the manager. */
  function Request(s: ScaleState, id: string, direction: string, api: Api): (ScaleState, Reply) {
    if !api.inspect || id !in s.services || !s.services[id].replicated then (s, Failed)
    else if direction == "over" then Over(s, id, api)
    else if direction == "under" then Under(s, id, api)
    else (s, Failed)
  }

  // ----- the timeout branch -----

  /** Which calls of the timeout branch succeed: the port lookup, the first `reach` listen requests, the scaling. */
  datatype TimeoutApi = TimeoutApi(lookup: bool, reach: nat, scale: bool)

  /** The scaling state after the timer of channel `c` fired; `completed` if the branch ran to its end. */
  function Expired(s: ScaleState, c: nat, completed: bool): ScaleState
    requires c in s.waiting
  {
    var id := s.waiting[c];
    var u := s.(waiting := s.waiting - {c});
    if completed && id in s.ops && id in s.services then
      WithService(u, id, s.services[id].(replicas := 0)).(ops := s.ops - {id})
    else u
  }

  /** The manager's scaling state with the port tables of all nodes. */
  datatype World = World(scale: ScaleState, ports: map<string, Ports>)

  /** The branch reaches the port lookup and passes it. */
  predicate ReachesListen(s: ScaleState, c: nat, api: TimeoutApi)
    requires c in s.waiting
  {
    var id := s.waiting[c];
    id in s.ops && api.lookup && id in s.services && s.services[id].publishedPorts != []
  }

  /** The branch runs to its end. */
  predicate Completes(w: World, host: string, others: seq<string>, c: nat, api: TimeoutApi)
    requires c in w.scale.waiting && host in w.ports
  {
    && ReachesListen(w.scale, c, api)
    && var id := w.scale.waiting[c];
    && Listen(w.ports[host], w.scale.services[id].publishedPorts[0], id).1
    && api.reach >= |others| && api.scale
  }

  /** Ports are armed here, then on the other nodes, then the service goes to 0; any failure stops the branch. */
  function Timeout(w: World, host: string, others: seq<string>, c: nat, api: TimeoutApi): World
    requires c in w.scale.waiting && host in w.ports
  {
    var ports :=
      if !ReachesListen(w.scale, c, api) then w.ports
      else
        var id := w.scale.waiting[c];
        var port := w.scale.services[id].publishedPorts[0];
        var (p, ok) := Listen(w.ports[host], port, id);
        var armedHere := w.ports[host := p];
        if ok then ListenAll(armedHere, Reached(others, api.reach), port, id) else armedHere;
    World(Expired(w.scale, c, Completes(w, host, others, c, api)), ports)
  }

  /** The service goes to 0 and its entry goes exactly if the entry is there and every call of the
      branch succeeds: the port lookup, the listen here, all listen requests and the scaling. On any
      failure no count and no entry moves. The goroutine is gone either way. */
  lemma TimeoutScalesExactly(w: World, host: string, others: seq<string>, c: nat, api: TimeoutApi)
    requires c in w.scale.waiting && host in w.ports
    ensures var s, s', id := w.scale, Timeout(w, host, others, c, api).scale, w.scale.waiting[c];
      var allSucceed :=
        && id in s.ops && id in s.services && api.lookup && s.services[id].publishedPorts != []
        && Listen(w.ports[host], s.services[id].publishedPorts[0], id).1
        && |others| <= api.reach && api.scale;
      && s'.waiting.Keys == s.waiting.Keys - {c} && (forall d | d in s'.waiting :: s'.waiting[d] == s.waiting[d])
      && s'.next == s.next
      && (allSucceed ==>
        && s'.ops == s.ops - {id}
        && s'.services.Keys == s.services.Keys && s'.services[id] == s.services[id].(replicas := 0)
        && forall x | x in s.services && x != id :: s'.services[x] == s.services[x])
      && (!allSucceed ==> s'.ops == s.ops && s'.services == s.services)
  {
  }

  /** On which nodes the branch listens: nowhere before it has a port; then here; then, unless that
      was refused, on the first `reach` nodes of the list. */
  lemma TimeoutListensExactly(w: World, host: string, others: seq<string>, c: nat, api: TimeoutApi, n: string)
    requires c in w.scale.waiting && host in w.ports && n in w.ports
    ensures var s, ports', id := w.scale, Timeout(w, host, others, c, api).ports, w.scale.waiting[c];
      && ports'.Keys == w.ports.Keys
      && if !(id in s.ops && id in s.services && api.lookup && s.services[id].publishedPorts != [])
         then ports'[n] == w.ports[n]
         else
           var port := s.services[id].publishedPorts[0];
           var asked := Listen(w.ports[host], port, id).1 &&
             exists i | 0 <= i < |others| && i < api.reach :: others[i] == n;
           ports'[n] == if n == host || asked then Listen(w.ports[n], port, id).0 else w.ports[n]
  {
    var s, id := w.scale, w.scale.waiting[c];
    if ReachesListen(s, c, api) {
      var port := s.services[id].publishedPorts[0];
      var armedHere := w.ports[host := Listen(w.ports[host], port, id).0];
      ReachedAreFirst(others, api.reach, n);
      ListenAllAt(armedHere, Reached(others, api.reach), port, id, n);
      ListenTwice(w.ports[n], port, id);
    }
  }

  class ScaleManager {
    const host: string
    const autoscalerManager: bool
    const otherNodes: seq<string>
    const network: Network
    var services: map<string, Service>
    var keepAliveOps: map<string, nat>
    var goroutines: map<nat, string>
    var nextChannel: nat

    ghost function State(): ScaleState
      reads this
    {
      ScaleState(services, keepAliveOps, goroutines, nextChannel)
    }

    constructor (
        host: string, autoscalerManager: bool, otherNodes: seq<string>,
        network: Network, services: map<string, Service>)
      ensures State() == ScaleState(services, map[], map[], 0)
      ensures this.host == host && this.autoscalerManager == autoscalerManager
      ensures this.otherNodes == otherNodes && this.network == network
    {
      this.host, this.autoscalerManager, this.otherNodes, this.network := host, autoscalerManager, otherNodes, network;
      this.services, keepAliveOps, goroutines, nextChannel := services, map[], map[], 0;
    }

    method UpdateServiceConstraints(serviceID: string, add: bool, succeeds: bool) returns (ok: bool)
      requires serviceID in services
      modifies this`services
      ensures ok <==> old(services)[serviceID].handler.None? || succeeds
      ensures services ==
        if ok then old(services)[serviceID := Constrained(old(services)[serviceID], add)] else old(services)
      ensures var handler := old(services)[serviceID].handler;
        ok && handler.Some? ==>
          forall h: string :: MayRunOn(services[serviceID], h) <==> (add ==> h == handler.value)
    {
      ConstrainedPlacement(services[serviceID], add);
      var service := services[serviceID];
      if service.handler.None? {
        assert services == services[serviceID := service];
        return true;
      }
      var constraints := service.constraints;
      if add {
        constraints := ["node.hostname==" + service.handler.value];
      } else if constraints != [] {
        constraints := [];
      }
      if !succeeds {
        return false;
      }
      services := services[serviceID := service.(constraints := constraints)];
      return true;
    }

    method ScaleTo(serviceID: string, replicas: uint64, succeeds: bool) returns (reply: Reply)
      modifies this`services
      ensures (State(), reply) == Scaled(old(State()), serviceID, replicas, succeeds)
    {
      if !succeeds || serviceID !in services {
        return Failed;
      }
      services := services[serviceID := services[serviceID].(replicas := replicas)];
      return Done;
    }

    /** `api` fixes which API calls succeed. */
    method ChangeServiceReplicas(serviceID: string, direction: string, api: Api) returns (reply: Reply)
      modifies this`services, this`keepAliveOps, this`goroutines, this`nextChannel
      ensures autoscalerManager ==> (State(), reply) == Request(old(State()), serviceID, direction, api)
      ensures !autoscalerManager ==> State() == old(State()) && reply == Failed
    {
      if !autoscalerManager {
        return Failed;
      }
      if !api.inspect || serviceID !in services {
        return Failed;
      }
      var service := services[serviceID];
      if !service.replicated {
        return Failed;
      }
      var currentReplicas := service.replicas;
      var newReplicas: uint64;
      if direction == "over" {
        if currentReplicas == 1 {
          var ok := UpdateServiceConstraints(serviceID, false, api.pin);
          if !ok {
            return Failed;
          }
        }
        newReplicas := Next64(currentReplicas);
        assert services == BeforeCancel(old(State()), serviceID).services;
        if serviceID in keepAliveOps {
          var keepAliveCh := keepAliveOps[serviceID];
          if keepAliveCh !in goroutines {
            return Blocked;
          }
          goroutines := goroutines - {keepAliveCh};
          keepAliveOps := keepAliveOps - {serviceID};
        }
      } else if direction == "under" {
        if currentReplicas > 1 {
          newReplicas := currentReplicas - 1;
          if newReplicas == 1 {
            var ok := UpdateServiceConstraints(serviceID, true, api.pin);
            if !ok {
              return Failed;
            }
          }
        } else {
          if serviceID in keepAliveOps {
            return Done;
          }
          keepAliveOps := keepAliveOps[serviceID := nextChannel];
          goroutines := goroutines[nextChannel := serviceID];
          nextChannel := nextChannel + 1;
          return Done;
        }
      } else {
        return Failed;
      }
      reply := ScaleTo(serviceID, newReplicas, api.scale);
    }

    /** The timeout branch of keepAliveAndScaleDown for the goroutine waiting on `channel`. */
    method KeepAliveExpired(channel: nat, api: TimeoutApi)
      requires channel in goroutines && host in network.ports
      modifies this`services, this`keepAliveOps, this`goroutines, network
      ensures World(State(), network.ports) ==
        Timeout(World(old(State()), old(network.ports)), host, otherNodes, channel, api)
    {
      var serviceID := goroutines[channel];
      goroutines := goroutines - {channel};
      if serviceID !in keepAliveOps {
        return;
      }
      if !api.lookup || serviceID !in services || services[serviceID].publishedPorts == [] {
        return;
      }
      var port := services[serviceID].publishedPorts[0];
      var ok := network.ListenOnPort(host, port, serviceID);
      if !ok {
        return;
      }
      ok := network.SendListenRequestToAllNodes(otherNodes, port, serviceID, api.reach);
      if !ok {
        return;
      }
      var reply := ScaleTo(serviceID, 0, api.scale);
      if reply != Done {
        return;
      }
      keepAliveOps := keepAliveOps - {serviceID};
    }
  }
}
