/** The nodes' agreement on where a port is armed, with wakes on all nodes taken in pieces
    (autoscaler/server/server.go, autoscaler/scale/scale.go, autoscaler/bpf_port_listen/listener.go). */
module Agreement {
  import opened Prelude
  import opened PortListener
  import opened Server
  import opened Scale
  import ScaleRuns
  import opened Cluster

  /** A port is armed on every node while its service sleeps and mapped on no node while it runs. */
  ghost predicate AgreesOn(c: State, id: string) {
    id in c.Services() && HasPort(c.Services()[id]) ==>
      var port := FirstPort(c.Services()[id]);
      if c.Services()[id].replicas == 0 then ArmedEverywhere(c.world.ports, id, port)
      else MappedWithin(c.world.ports, port, [])
  }

  /** Every wake under way for the service has still to visit all nodes on which its port is mapped. */
  ghost predicate WakesCover(c: State, id: string) {
    forall m | m in c.wakes && c.wakes[m].id == id && !c.wakes[m].stuck ::
      MappedWithin(c.world.ports, c.wakes[m].port, c.wakes[m].todo)
  }

  /** The agreement for one service with wakes taken in pieces: the nodes agree on it as soon as no
      wake for it is under way. A stuck wake is not. */
  ghost predicate AgreesOrWaking(c: State, id: string) {
    WakesCover(c, id) && (!WakePending(c.wakes, id) ==> AgreesOn(c, id))
  }

  ghost predicate AllAgreeOrWaking(c: State) {
    forall id {:trigger AgreesOrWaking(c, id)} | id in c.Services() :: AgreesOrWaking(c, id)
  }

  ghost predicate NodesAgree(cfg: Config, c: State) {
    Structure(cfg, c) && AllAgreeOrWaking(c)
  }

  /** A successful `over` request that takes a count from 0 or, wrapping, to 0. */
  predicate Crosses(s: ScaleState, id: string, direction: string, api: Api) {
    && direction == "over" && api.inspect && api.scale
    && id in s.services && s.services[id].replicated && !ScaleRuns.Orphan(s, id)
    && (s.services[id].replicas == 0 || s.services[id].replicas == ScaleRuns.FULL)
  }

  /** Every wake under way for `id` still has all nodes to visit. */
  ghost predicate WakesJustStarted(cfg: Config, c: State, id: string) {
    forall m | m in c.wakes && c.wakes[m].id == id && !c.wakes[m].stuck ::
      forall n | n in cfg.others :: n in c.wakes[m].todo
  }

  /** Every wake under way for the service still has all nodes to visit on which a timeout listens. */
  ghost predicate WakesFollow(cfg: Config, c: State, ch: nat, api: TimeoutApi)
    requires Enabled(cfg, c, Expire(ch, api))
  {
    forall m | m in c.wakes && c.wakes[m].id == c.world.scale.waiting[ch] && !c.wakes[m].stuck ::
      forall n | n in c.world.ports && ListensAt(cfg, c.world.scale, ch, api, n) :: n in c.wakes[m].todo
  }

  /** The steps that keep the agreement: a request that starts or wraps a service with a port while a
      wake for it is under way; a timeout that listens nowhere, or only on nodes all wakes under way
      have still to visit, and that runs to its end unless the service sleeps or is being woken; every
      packet; a remove request that arrives, or that nobody needed; a final scaling that leaves a
      replica or another wake. Calls that make no difference to this may fail. */
  ghost predicate Orderly(cfg: Config, c: State, a: Action) {
    Enabled(cfg, c, a) &&
    match a
    case Ask(id, direction, api) =>
      Crosses(c.world.scale, id, direction, api) && HasPort(c.Services()[id]) ==> WakePending(c.wakes, id)
    case Expire(ch, api) =>
      var id := c.world.scale.waiting[ch];
      ReachesListen(c.world.scale, ch, api) ==>
        && WakesFollow(cfg, c, ch, api)
        && (FailsTimeout(cfg, c, a, id) && !WakePending(c.wakes, id) ==> AtZero(c, id))
    case Packet(_, _) => true
    case RemoveNext(n, arrives) => arrives || MappedWithin(c.world.ports, c.wakes[n].port, [])
    case Finish(n, api) =>
      LeavesAsleep(cfg, c.world.scale, n, c.wakes[n].id, api) ==> WakePending(c.wakes - {n}, c.wakes[n].id)
  }

  lemma SamePending(wakes: map<string, WakeInProgress>, wakes': map<string, WakeInProgress>, id: string)
    requires SameWakes(wakes, wakes', id)
    ensures WakePending(wakes, id) <==> WakePending(wakes', id)
  {
  }

  /** A service keeps agreeing when only another port moved and its own wakes and sleep did not. */
  lemma OtherKeepsAgreement(cfg: Config, c: State, c': State, id: string, q: uint32)
    requires Structure(cfg, c) && AgreesOrWaking(c, id) && id in c.Services() && id in c'.Services()
    requires c'.Services()[id].publishedPorts == c.Services()[id].publishedPorts
    requires c'.Services()[id].replicas == 0 <==> c.Services()[id].replicas == 0
    requires AllKeepOthers(c.world.ports, c'.world.ports, q)
    requires HasPort(c.Services()[id]) ==> FirstPort(c.Services()[id]) != q
    requires SameWakes(c.wakes, c'.wakes, id)
    ensures AgreesOrWaking(c', id)
  {
    SamePending(c.wakes, c'.wakes, id);
    forall m | m in c'.wakes && c'.wakes[m].id == id && !c'.wakes[m].stuck
      ensures MappedWithin(c'.world.ports, c'.wakes[m].port, c'.wakes[m].todo)
    {
      assert Owns(c.Services(), id, c.wakes[m].port);
      assert MappedWithin(c.world.ports, c.wakes[m].port, c.wakes[m].todo);
    }
    if !WakePending(c.wakes, id) && HasPort(c.Services()[id]) && c.Services()[id].replicas == 0 {
      StillArmed(c.world.ports, c'.world.ports, q, id, FirstPort(c.Services()[id]));
    }
  }

  /** No port moved at all. */
  lemma SamePortsKeepAgreement(c: State, c': State, id: string)
    requires AgreesOrWaking(c, id) && id in c.Services() && id in c'.Services() && c'.world.ports == c.world.ports
    requires c'.Services()[id].publishedPorts == c.Services()[id].publishedPorts
    requires WakePending(c.wakes, id) || (c'.Services()[id].replicas == 0 <==> c.Services()[id].replicas == 0)
    requires SameWakes(c.wakes, c'.wakes, id)
    ensures AgreesOrWaking(c', id)
  {
    SamePending(c.wakes, c'.wakes, id);
  }

  /** With its port armed everywhere a service is not agreed to run, and the other way round. */
  lemma SleepsOrRuns(cfg: Config, c: State, id: string)
    requires Structure(cfg, c) && id in c.Services() && HasPort(c.Services()[id])
    ensures var port := FirstPort(c.Services()[id]);
      !(ArmedEverywhere(c.world.ports, id, port) && MappedWithin(c.world.ports, port, []))
  {
    assert cfg.manager in c.world.ports;
    if ArmedEverywhere(c.world.ports, id, FirstPort(c.Services()[id])) {
      assert Armed(c.world.ports[cfg.manager], id, FirstPort(c.Services()[id]));
    }
  }

  // requests

  lemma AskCrosses(s: ScaleState, id: string, direction: string, api: Api, x: string)
    requires ScaleRuns.Inv(s) && x in s.services
    ensures var s' := Request(s, id, direction, api).0;
      && x in s'.services
      && ((s'.services[x].replicas == 0 <==> s.services[x].replicas == 0) <==>
          !(x == id && Crosses(s, id, direction, api)))
  {
    var a := ScaleRuns.Ask(id, direction, api);
    ScaleRuns.AskMovesReplicas(s, a, x);
    if x == id { ScaleRuns.OverMovesReplicas(s, id, api); }
  }

  lemma AskKeepsAgreementExactly(cfg: Config, c: State, a: Action)
    requires NodesAgree(cfg, c) && a.Ask?
    ensures NodesAgree(cfg, Next(cfg, c, a)) <==> Orderly(cfg, c, a)
  {
    var c' := Next(cfg, c, a);
    ManagerStep(cfg, c, a);
    StepKeepsStructure(cfg, c, a);
    forall id | id in c'.Services()
      ensures AgreesOrWaking(c', id) <==> (id == a.id ==> Orderly(cfg, c, a))
    {
      assert AgreesOrWaking(c, id);
      AskKeepsOneExactly(cfg, c, a, id);
    }
    if a.id in c'.Services() { assert AgreesOrWaking(c', a.id) <==> Orderly(cfg, c, a); }
  }

  lemma AskKeepsOneExactly(cfg: Config, c: State, a: Action, id: string)
    requires Structure(cfg, c) && a.Ask? && id in c.Services() && AgreesOrWaking(c, id)
    ensures AgreesOrWaking(Next(cfg, c, a), id) <==> (id == a.id ==> Orderly(cfg, c, a))
  {
    var c' := Next(cfg, c, a);
    ManagerStep(cfg, c, a);
    AskCrosses(c.world.scale, a.id, a.direction, a.api, id);
    assert c'.world.ports == c.world.ports && c'.wakes == c.wakes && Enabled(cfg, c, a);
    hide Next, Enabled;
    if id == a.id && Crosses(c.world.scale, id, a.direction, a.api) {
      CrossingAgreesExactly(cfg, c, c', id);
    } else {
      hide Structure, AgreesOn, WakesCover;
      SamePortsKeepAgreement(c, c', id);
    }
  }

  /** A service that starts or wraps on unmoved ports. */
  lemma CrossingAgreesExactly(cfg: Config, c: State, c': State, id: string)
    requires Structure(cfg, c) && id in c.Services() && id in c'.Services() && AgreesOrWaking(c, id)
    requires c'.world.ports == c.world.ports && c'.wakes == c.wakes
    requires c'.Services()[id].publishedPorts == c.Services()[id].publishedPorts
    requires !(c'.Services()[id].replicas == 0 <==> c.Services()[id].replicas == 0)
    ensures AgreesOrWaking(c', id) <==> (HasPort(c.Services()[id]) ==> WakePending(c.wakes, id))
  {
    if HasPort(c.Services()[id]) {
      SleepsOrRuns(cfg, c, id);
    }
    hide Structure, ArmedEverywhere, MappedWithin;
    SamePending(c.wakes, c'.wakes, id);
  }

  // timeouts

  /** Where the port is mapped after a timeout. */
  lemma ExpireMapsExactly(cfg: Config, c: State, ch: nat, api: TimeoutApi, todo: seq<string>)
    requires Structure(cfg, c) && Enabled(cfg, c, Expire(ch, api)) && HasPort(c.Services()[c.world.scale.waiting[ch]])
    ensures var port := FirstPort(c.Services()[c.world.scale.waiting[ch]]);
      MappedWithin(Next(cfg, c, Expire(ch, api)).world.ports, port, todo) <==>
        && MappedWithin(c.world.ports, port, todo)
        && forall n | n in c.world.ports && ListensAt(cfg, c.world.scale, ch, api, n) :: n in todo
  {
    var port := FirstPort(c.Services()[c.world.scale.waiting[ch]]);
    var ports' := Next(cfg, c, Expire(ch, api)).world.ports;
    assert cfg.manager in c.world.ports;
    TimeoutPorts(cfg, c, ch, api, cfg.manager);
    forall n | n in c.world.ports
      ensures n in ports'
      ensures port in ports'[n].services <==>
        port in c.world.ports[n].services || ListensAt(cfg, c.world.scale, ch, api, n)
    {
      TimeoutPorts(cfg, c, ch, api, n);
    }
  }

  lemma ExpireCovers(cfg: Config, c: State, ch: nat, api: TimeoutApi)
    requires Structure(cfg, c) && Enabled(cfg, c, Expire(ch, api)) && WakesCover(c, c.world.scale.waiting[ch])
    requires HasPort(c.Services()[c.world.scale.waiting[ch]])
    ensures WakesCover(Next(cfg, c, Expire(ch, api)), c.world.scale.waiting[ch]) <==> WakesFollow(cfg, c, ch, api)
  {
    var x, c' := c.world.scale.waiting[ch], Next(cfg, c, Expire(ch, api));
    hide MappedWithin, ListensAt;
    forall m | m in c.wakes && c.wakes[m].id == x && !c.wakes[m].stuck
      ensures MappedWithin(c'.world.ports, c.wakes[m].port, c.wakes[m].todo) <==>
        forall n | n in c.world.ports && ListensAt(cfg, c.world.scale, ch, api, n) :: n in c.wakes[m].todo
    {
      assert Owns(c.Services(), x, c.wakes[m].port);
      ExpireMapsExactly(cfg, c, ch, api, c.wakes[m].todo);
    }
  }

  /** A timeout that listens keeps the agreement on its own service exactly if it is orderly. */
  lemma ExpireKeepsOwnAgreementExactly(cfg: Config, c: State, ch: nat, api: TimeoutApi)
    requires Structure(cfg, c) && Enabled(cfg, c, Expire(ch, api)) && AgreesOrWaking(c, c.world.scale.waiting[ch])
    requires ReachesListen(c.world.scale, ch, api)
    ensures AgreesOrWaking(Next(cfg, c, Expire(ch, api)), c.world.scale.waiting[ch]) <==>
      Orderly(cfg, c, Expire(ch, api))
  {
    var x, c' := c.world.scale.waiting[ch], Next(cfg, c, Expire(ch, api));
    ExpireServices(cfg, c, ch, api);
    ExpireOwns(cfg, c, ch, api);
    ExpireCovers(cfg, c, ch, api);
    if Completes(c.world, cfg.manager, cfg.others[cfg.manager], ch, api) {
      CompletedArms(cfg, c, ch, api);
    } else if !WakePending(c.wakes, x) {
      ExpireMapsExactly(cfg, c, ch, api, []);
      ExpireArmsExactly(cfg, c, ch, api);
      assert cfg.manager in c.world.ports && ListensAt(cfg, c.world.scale, ch, api, cfg.manager);
    }
  }

  /** A timeout keeps the agreement exactly if it is orderly; a failed one may. */
  lemma ExpireKeepsAgreementExactly(cfg: Config, c: State, ch: nat, api: TimeoutApi)
    requires NodesAgree(cfg, c) && Enabled(cfg, c, Expire(ch, api))
    ensures NodesAgree(cfg, Next(cfg, c, Expire(ch, api))) <==> Orderly(cfg, c, Expire(ch, api))
  {
    var a, x := Expire(ch, api), c.world.scale.waiting[ch];
    var c' := Next(cfg, c, a);
    StepKeepsStructure(cfg, c, a);
    ExpireServices(cfg, c, ch, api);
    hide Structure, AgreesOrWaking, Orderly;
    forall id | id in c'.Services()
      ensures AgreesOrWaking(c', id) <==> (id == x ==> Orderly(cfg, c, a))
    {
      assert AgreesOrWaking(c, id);
      ExpireKeepsOneExactly(cfg, c, ch, api, id);
    }
    assert AgreesOrWaking(c', x) <==> Orderly(cfg, c, a);
  }

  lemma ExpireKeepsOneExactly(cfg: Config, c: State, ch: nat, api: TimeoutApi, id: string)
    requires Structure(cfg, c) && Enabled(cfg, c, Expire(ch, api)) && id in c.Services() && AgreesOrWaking(c, id)
    ensures AgreesOrWaking(Next(cfg, c, Expire(ch, api)), id) <==>
      (id == c.world.scale.waiting[ch] ==> Orderly(cfg, c, Expire(ch, api)))
  {
    var a, x := Expire(ch, api), c.world.scale.waiting[ch];
    var c' := Next(cfg, c, a);
    ExpireServices(cfg, c, ch, api);
    if !ReachesListen(c.world.scale, ch, api) {
      SamePortsKeepAgreement(c, c', id);
    } else if id == x {
      ExpireKeepsOwnAgreementExactly(cfg, c, ch, api);
    } else {
      PortsStep(cfg, c, a);
      hide AgreesOrWaking, PortsOwned;
      OtherKeepsAgreement(cfg, c, c', id, FirstPort(c.Services()[x]));
    }
  }

  /** In particular a completed timeout keeps the agreement exactly when every wake under way for its
      service still has all nodes to visit. */
  lemma CompletedKeepsAgreementExactly(cfg: Config, c: State, ch: nat, api: TimeoutApi)
    requires NodesAgree(cfg, c) && Enabled(cfg, c, Expire(ch, api))
    requires Completes(c.world, cfg.manager, cfg.others[cfg.manager], ch, api)
    ensures NodesAgree(cfg, Next(cfg, c, Expire(ch, api))) <==> WakesJustStarted(cfg, c, c.world.scale.waiting[ch])
  {
    ExpireKeepsAgreementExactly(cfg, c, ch, api);
    forall n | n in c.world.ports ensures ListensAt(cfg, c.world.scale, ch, api, n) {
      TimeoutPorts(cfg, c, ch, api, n);
    }
  }

  // packets and remove requests

  lemma PacketKeepsAgreement(cfg: Config, c: State, n: string, port: uint32)
    requires NodesAgree(cfg, c) && Enabled(cfg, c, Packet(n, port))
    ensures NodesAgree(cfg, Next(cfg, c, Packet(n, port)))
  {
    var c' := Next(cfg, c, Packet(n, port));
    StepKeepsStructure(cfg, c, Packet(n, port));
    hide Structure, AgreesOrWaking;
    if port in c.world.ports[n].services {
      forall id | id in c'.Services() ensures AgreesOrWaking(c', id) {
        assert AgreesOrWaking(c, id);
        PacketKeepsOne(cfg, c, n, port, id);
      }
    }
  }

  lemma PacketKeepsOne(cfg: Config, c: State, n: string, port: uint32, id: string)
    requires Structure(cfg, c) && Enabled(cfg, c, Packet(n, port)) && port in c.world.ports[n].services
    requires id in c.Services() && AgreesOrWaking(c, id)
    ensures AgreesOrWaking(Next(cfg, c, Packet(n, port)), id)
  {
    assert NodeOwned(c.Services(), c.world.ports[n]);
    if id == c.world.ports[n].services[port] {
      PacketCovers(cfg, c, n, port);
    } else {
      PortsStep(cfg, c, Packet(n, port));
      hide AgreesOrWaking, PortsOwned;
      OtherKeepsAgreement(cfg, c, Next(cfg, c, Packet(n, port)), id, port);
    }
  }

  /** The new wake has every other node to visit, and its own is done. */
  lemma PacketCovers(cfg: Config, c: State, n: string, port: uint32)
    requires Structure(cfg, c) && Enabled(cfg, c, Packet(n, port)) && port in c.world.ports[n].services
    requires AgreesOrWaking(c, c.world.ports[n].services[port])
    ensures var c' := Next(cfg, c, Packet(n, port));
      AgreesOrWaking(c', c.world.ports[n].services[port])
  {
    var c', x := Next(cfg, c, Packet(n, port)), c.world.ports[n].services[port];
    assert ReachesAll(cfg, n) && NodeOwned(c.Services(), c.world.ports[n]);
    assert n in c'.wakes && c'.wakes[n].id == x;
    forall m | m in c'.wakes && c'.wakes[m].id == x && !c'.wakes[m].stuck
      ensures MappedWithin(c'.world.ports, c'.wakes[m].port, c'.wakes[m].todo)
    {
      if m != n {
        assert Owns(c.Services(), x, c.wakes[m].port);
        assert MappedWithin(c.world.ports, c.wakes[m].port, c.wakes[m].todo);
      }
    }
  }

  /** A remove request that arrives, or that no node needed, keeps the agreement; no other does. */
  lemma RemoveNextKeepsAgreementExactly(cfg: Config, c: State, n: string, arrives: bool)
    requires NodesAgree(cfg, c) && Enabled(cfg, c, RemoveNext(n, arrives))
    ensures NodesAgree(cfg, Next(cfg, c, RemoveNext(n, arrives))) <==> Orderly(cfg, c, RemoveNext(n, arrives))
  {
    var a, x := RemoveNext(n, arrives), c.wakes[n].id;
    var c' := Next(cfg, c, a);
    StepKeepsStructure(cfg, c, a);
    assert Owns(c.Services(), x, c.wakes[n].port);
    hide Structure, AgreesOrWaking;
    assert AgreesOrWaking(c, x);
    RemoveNextCovers(cfg, c, n, arrives);
    forall id | id in c'.Services() && id != x ensures AgreesOrWaking(c', id) {
      assert AgreesOrWaking(c, id);
      RemoveNextKeepsOthers(cfg, c, n, arrives, id);
    }
    assert AgreesOrWaking(c', x) <==> Orderly(cfg, c, a);
  }

  lemma RemoveNextKeepsOthers(cfg: Config, c: State, n: string, arrives: bool, id: string)
    requires Structure(cfg, c) && Enabled(cfg, c, RemoveNext(n, arrives)) && AgreesOrWaking(c, id)
    requires id in c.Services() && id != c.wakes[n].id
    ensures AgreesOrWaking(Next(cfg, c, RemoveNext(n, arrives)), id)
  {
    var c' := Next(cfg, c, RemoveNext(n, arrives));
    assert Owns(c.Services(), c.wakes[n].id, c.wakes[n].port);
    if arrives && c.wakes[n].todo[0] in c.world.ports {
      RemoveNextStep(cfg, c, n, arrives);
      hide AgreesOrWaking, PortsOwned;
      OtherKeepsAgreement(cfg, c, c', id, c.wakes[n].port);
    } else {
      SamePortsKeepAgreement(c, c', id);
    }
  }

  /** A removal at `n` spares a wake the visit of `n`. */
  lemma RemovalCovers(
      services: map<string, Service>, ports: map<string, Ports>, n: string, port: uint32, todo: seq<string>)
    requires PortsOwned(services, ports) && MappedWithin(ports, port, todo)
    ensures MappedWithin(RemoveAt(ports, n, port), port, todo)
    ensures todo != [] && todo[0] == n ==> MappedWithin(RemoveAt(ports, n, port), port, todo[1..])
  {
    if n in ports {
      assert NodeOwned(services, ports[n]);
      NodeRemove(services, ports[n], port);
    }
    if todo != [] { assert todo == [todo[0]] + todo[1..]; }
  }

  lemma RemoveNextCovers(cfg: Config, c: State, n: string, arrives: bool)
    requires Structure(cfg, c) && Enabled(cfg, c, RemoveNext(n, arrives)) && AgreesOrWaking(c, c.wakes[n].id)
    ensures AgreesOrWaking(Next(cfg, c, RemoveNext(n, arrives)), c.wakes[n].id) <==>
      Orderly(cfg, c, RemoveNext(n, arrives))
  {
    var c', w := Next(cfg, c, RemoveNext(n, arrives)), c.wakes[n];
    assert n in c'.wakes && c'.wakes[n].id == w.id;
    hide MappedWithin;
    if arrives {
      forall m | m in c'.wakes && c'.wakes[m].id == w.id && !c'.wakes[m].stuck
        ensures MappedWithin(c'.world.ports, c'.wakes[m].port, c'.wakes[m].todo)
      {
        assert Owns(c.Services(), w.id, c.wakes[m].port);
        RemovalCovers(c.Services(), c.world.ports, w.todo[0], w.port, c.wakes[m].todo);
      }
    } else if MappedWithin(c.world.ports, w.port, []) {
      forall m | m in c'.wakes && c'.wakes[m].id == w.id && !c'.wakes[m].stuck
        ensures MappedWithin(c'.world.ports, c'.wakes[m].port, c'.wakes[m].todo)
      {
        assert m == n || c'.wakes[m] == c.wakes[m];
      }
    }
  }

  // final scalings

  /** Where the nodes agree, the removals of a wake about to scale have unmapped its port everywhere. */
  lemma DoneIsUnmapped(cfg: Config, c: State, n: string, api: Api)
    requires NodesAgree(cfg, c) && Enabled(cfg, c, Finish(n, api))
    ensures var id := c.wakes[n].id;
      && Owns(c.Services(), id, c.wakes[n].port) && AgreesOrWaking(c, id)
      && MappedWithin(c.world.ports, c.wakes[n].port, []) && !ArmedEverywhere(c.world.ports, id, c.wakes[n].port)
  {
    assert Owns(c.Services(), c.wakes[n].id, c.wakes[n].port);
    assert AgreesOrWaking(c, c.wakes[n].id);
    SleepsOrRuns(cfg, c, c.wakes[n].id);
  }

  lemma FinishKeepsOwnExactly(cfg: Config, c: State, n: string, api: Api)
    requires NodesAgree(cfg, c) && Enabled(cfg, c, Finish(n, api))
    ensures AgreesOrWaking(Next(cfg, c, Finish(n, api)), c.wakes[n].id) <==> Orderly(cfg, c, Finish(n, api))
  {
    DoneIsUnmapped(cfg, c, n, api);
    FinishToZero(cfg, c, n, api);
    StuckIsGone(cfg, c.world.scale, c.wakes, n, c.wakes[n].id);
    hide Next, Structure;
  }

  lemma FinishKeepsAgreementExactly(cfg: Config, c: State, n: string, api: Api)
    requires NodesAgree(cfg, c) && Enabled(cfg, c, Finish(n, api))
    ensures NodesAgree(cfg, Next(cfg, c, Finish(n, api))) <==> Orderly(cfg, c, Finish(n, api))
  {
    var a, x := Finish(n, api), c.wakes[n].id;
    var c' := Next(cfg, c, a);
    StepKeepsStructure(cfg, c, a);
    FinishToZero(cfg, c, n, api);
    FinishKeepsOwnExactly(cfg, c, n, api);
    hide Structure, AgreesOrWaking, Orderly, Next;
    forall id | id in c'.Services() && id != x ensures AgreesOrWaking(c', id) {
      assert AgreesOrWaking(c, id);
      FinishKeepsOthers(cfg, c, n, api, id);
    }
  }

  lemma FinishKeepsOthers(cfg: Config, c: State, n: string, api: Api, id: string)
    requires Structure(cfg, c) && Enabled(cfg, c, Finish(n, api)) && AgreesOrWaking(c, id)
    requires id in c.Services() && id != c.wakes[n].id
    ensures AgreesOrWaking(Next(cfg, c, Finish(n, api)), id)
  {
    FinishToZero(cfg, c, n, api);
    hide Next, AgreesOrWaking;
    SamePortsKeepAgreement(c, Next(cfg, c, Finish(n, api)), id);
  }

  /** Every step keeps the agreement if and only if it is orderly. */
  lemma StepKeepsAgreementExactly(cfg: Config, c: State, a: Action)
    requires NodesAgree(cfg, c) && Enabled(cfg, c, a)
    ensures NodesAgree(cfg, Next(cfg, c, a)) <==> Orderly(cfg, c, a)
  {
    match a
    case Ask(_, _, _) => AskKeepsAgreementExactly(cfg, c, a);
    case Expire(ch, api) => ExpireKeepsAgreementExactly(cfg, c, ch, api);
    case Packet(n, port) => PacketKeepsAgreement(cfg, c, n, port);
    case RemoveNext(n, arrives) => RemoveNextKeepsAgreementExactly(cfg, c, n, arrives);
    case Finish(n, api) => FinishKeepsAgreementExactly(cfg, c, n, api);
  }

  lemma InitAgrees(cfg: Config, c: State)
    requires Init(cfg, c)
    ensures NodesAgree(cfg, c)
  {
    InitIsSound(cfg, c);
    assert forall n | n in c.world.ports :: c.world.ports[n] == NO_PORTS;
  }

  lemma RunStepAgreement(cfg: Config, cs: seq<State>, actions: seq<Action>, i: nat)
    requires IsRun(cfg, cs, actions) && i < |actions| && NodesAgree(cfg, cs[i])
    ensures NodesAgree(cfg, cs[i + 1]) <==> Orderly(cfg, cs[i], actions[i])
  {
    hide NodesAgree, Orderly;
    assert StepAt(cfg, cs, actions, i);
    StepKeepsAgreementExactly(cfg, cs[i], actions[i]);
  }

  /** The nodes agree, exactly. In every run of interleaved wakes, requests and timeouts, with calls
      failing at any time, every service's port is at all times armed on every node if it sleeps and
      on no node if it runs -- or still to be visited by every wake under way for it -- if and only
      if every step is orderly. */
  lemma NodesAlwaysAgree(cfg: Config, cs: seq<State>, actions: seq<Action>, i: nat)
    requires IsRun(cfg, cs, actions) && i <= |actions|
    ensures (forall k | 0 <= k <= i :: NodesAgree(cfg, cs[k])) <==>
      (forall k | 0 <= k < i :: Orderly(cfg, cs[k], actions[k]))
  {
    InitAgrees(cfg, cs[0]);
    hide NodesAgree, Orderly, StepAt;
    forall k | 0 <= k < i && NodesAgree(cfg, cs[k])
      ensures NodesAgree(cfg, cs[k + 1]) <==> Orderly(cfg, cs[k], actions[k])
    {
      RunStepAgreement(cfg, cs, actions, k);
    }
    StepwiseExactly(cs, actions, c => NodesAgree(cfg, c), (c, a) => Orderly(cfg, c, a), 0, i);
  }

  /** An `over` request for a sleeping service leaves its port armed while it runs: the agreement
      survives the request exactly when the service was running, a wake for it is under way, it has
      no port, or the request blocks. */
  lemma OverKeepsAgreementExactly(cfg: Config, c: State, id: string)
    requires NodesAgree(cfg, c) && NoneFull(c.Services())
    requires id in c.Services() && c.Services()[id].replicated
    ensures NodesAgree(cfg, Next(cfg, c, Ask(id, "over", ALL_SUCCEED))) <==>
      || c.Services()[id].replicas >= 1 || WakePending(c.wakes, id)
      || !HasPort(c.Services()[id]) || ScaleRuns.Orphan(c.world.scale, id)
  {
    AskKeepsAgreementExactly(cfg, c, Ask(id, "over", ALL_SUCCEED));
  }

  // ----- runs without errors -----

  /** Every call of the step succeeds and no count wraps. */
  predicate ErrorFree(cfg: Config, c: State, a: Action) {
    Enabled(cfg, c, a) &&
    match a
    case Ask(id, direction, api) =>
      api == ALL_SUCCEED && (id in c.Services() ==> c.Services()[id].replicas < ScaleRuns.FULL)
    case Expire(ch, api) =>
      var x := c.world.scale.waiting[ch];
      api == AllReached(cfg) && x in c.Services() && HasPort(c.Services()[x])
    case Packet(_, _) => true
    case RemoveNext(_, arrives) => arrives
    case Finish(n, api) => api == ALL_SUCCEED && c.Services()[c.wakes[n].id].replicas < ScaleRuns.FULL
  }

  ghost predicate NoOrphans(s: ScaleState) {
    forall id | id in s.ops :: !ScaleRuns.Orphan(s, id)
  }

  /** The step neither starts a sleeping service no wake is under way for, nor puts a service back to
      sleep behind a wake that has visited nodes already. */
  ghost predicate InTurn(cfg: Config, c: State, a: Action) {
    Enabled(cfg, c, a) &&
    match a
    case Ask(id, direction, api) =>
      Crosses(c.world.scale, id, direction, api) && HasPort(c.Services()[id]) ==> WakePending(c.wakes, id)
    case Expire(ch, _) => WakesJustStarted(cfg, c, c.world.scale.waiting[ch])
    case _ => true
  }

  lemma ErrorFreeStepExactly(cfg: Config, c: State, a: Action)
    requires NodesAgree(cfg, c) && NoOrphans(c.world.scale) && ErrorFree(cfg, c, a)
    ensures NodesAgree(cfg, Next(cfg, c, a)) <==> InTurn(cfg, c, a)
  {
    StepKeepsAgreementExactly(cfg, c, a);
    if a.Expire? {
      ReachedCompletes(cfg, c, a.channel);
      CompletedKeepsAgreementExactly(cfg, c, a.channel, a.timeoutApi);
    }
  }

  /** In runs without errors the nodes agree throughout if and only if no `over` request starts a
      sleeping service and no timeout overtakes a wake. */
  lemma ErrorFreeRunsAgreeExactly(cfg: Config, cs: seq<State>, actions: seq<Action>, i: nat)
    requires IsRun(cfg, cs, actions) && i <= |actions|
    requires forall k | 0 <= k < i :: ErrorFree(cfg, cs[k], actions[k])
    ensures (forall k | 0 <= k <= i :: NodesAgree(cfg, cs[k])) <==>
      (forall k | 0 <= k < i :: InTurn(cfg, cs[k], actions[k]))
  {
    InitAgrees(cfg, cs[0]);
    hide NodesAgree, InTurn, StepAt, ErrorFree;
    forall k | 0 <= k < i && NodesAgree(cfg, cs[k])
      ensures NodesAgree(cfg, cs[k + 1]) <==> InTurn(cfg, cs[k], actions[k])
    {
      ErrorFreeRunStep(cfg, cs, actions, k);
    }
    StepwiseExactly(cs, actions, c => NodesAgree(cfg, c), (c, a) => InTurn(cfg, c, a), 0, i);
  }

  lemma ErrorFreeRunStep(cfg: Config, cs: seq<State>, actions: seq<Action>, k: nat)
    requires IsRun(cfg, cs, actions) && k < |actions| && NodesAgree(cfg, cs[k])
    requires forall j | 0 <= j <= k :: ErrorFree(cfg, cs[j], actions[j])
    ensures NodesAgree(cfg, cs[k + 1]) <==> InTurn(cfg, cs[k], actions[k])
  {
    hide NodesAgree, InTurn, ErrorFree;
    assert ErrorFree(cfg, cs[k], actions[k]);
    ErrorFreeHasNoOrphans(cfg, cs, actions, k);
    assert StepAt(cfg, cs, actions, k);
    ErrorFreeStepExactly(cfg, cs[k], actions[k]);
  }

  lemma {:induction false} ErrorFreeHasNoOrphans(cfg: Config, cs: seq<State>, actions: seq<Action>, k: nat)
    requires IsRun(cfg, cs, actions) && k <= |actions|
    requires forall j | 0 <= j < k :: ErrorFree(cfg, cs[j], actions[j])
    ensures NoOrphans(cs[k].world.scale)
  {
    if k > 0 {
      ErrorFreeHasNoOrphans(cfg, cs, actions, k - 1);
      RunKeepsStructure(cfg, cs, actions, k - 1);
      assert StepAt(cfg, cs, actions, k - 1) && ErrorFree(cfg, cs[k - 1], actions[k - 1]);
      hide IsRun, StepAt, NoOrphans;
      NoNewOrphans(cfg, cs[k - 1], actions[k - 1]);
    }
  }

  lemma NoNewOrphans(cfg: Config, c: State, a: Action)
    requires Structure(cfg, c) && NoOrphans(c.world.scale) && ErrorFree(cfg, c, a)
    ensures NoOrphans(Next(cfg, c, a).world.scale)
  {
    var s' := Next(cfg, c, a).world.scale;
    if a.Expire? { ReachedCompletes(cfg, c, a.channel); }
    forall id | id in s'.ops ensures !ScaleRuns.Orphan(s', id) {
      OrphanStep(cfg, c, a, id);
    }
  }

  // ----- a wake overtaken by a timeout -----

  /** Two nodes wake the sleeping service at the same time. */
  lemma TwoPackets(cfg: Config, c: State, id: string, port: uint32, w: string)
    requires Structure(cfg, c) && c.wakes == map[] && ArmedEverywhere(c.world.ports, id, port)
    requires w in cfg.others && w != cfg.manager
    ensures Enabled(cfg, c, Packet(w, port))
    ensures var c1 := Next(cfg, c, Packet(w, port));
      && Enabled(cfg, c1, Packet(cfg.manager, port))
      && var c2 := Next(cfg, c1, Packet(cfg.manager, port));
      && c2.world.scale == c.world.scale
      && c2.wakes == map[w := WakeInProgress(id, port, cfg.others[w], false),
                         cfg.manager := WakeInProgress(id, port, cfg.others[cfg.manager], false)]
  {
    assert Armed(c.world.ports[w], id, port) && Armed(c.world.ports[cfg.manager], id, port);
  }

  lemma TwoPacketsRun(cfg: Config, cs: seq<State>, actions: seq<Action>, id: string, port: uint32, w: string)
    returns (cs': seq<State>, actions': seq<Action>)
    requires IsRun(cfg, cs, actions) && Last(cs).wakes == map[] && ArmedEverywhere(Last(cs).world.ports, id, port)
    requires w in cfg.others && w != cfg.manager
    ensures IsRun(cfg, cs', actions') && cs'[0] == cs[0] && Last(cs').world.scale == Last(cs).world.scale
    ensures Last(cs').wakes == map[w := WakeInProgress(id, port, cfg.others[w], false),
                                   cfg.manager := WakeInProgress(id, port, cfg.others[cfg.manager], false)]
  {
    RunKeepsStructure(cfg, cs, actions, |actions|);
    TwoPackets(cfg, Last(cs), id, port, w);
    hide Structure, ArmedEverywhere, Next, Enabled;
    cs', actions' := Extended(cfg, cs, actions, Packet(w, port));
    cs', actions' := Extended(cfg, cs', actions', Packet(cfg.manager, port));
  }

  /** Both wakes have sent all their removals. */
  lemma TwoWakesRun(cfg: Config, cs: seq<State>, actions: seq<Action>, id: string, port: uint32, w: string)
    returns (cs': seq<State>, actions': seq<Action>)
    requires IsRun(cfg, cs, actions) && Last(cs).wakes == map[] && ArmedEverywhere(Last(cs).world.ports, id, port)
    requires w in cfg.others && w != cfg.manager
    ensures IsRun(cfg, cs', actions') && cs'[0] == cs[0] && Last(cs').world.scale == Last(cs).world.scale
    ensures Last(cs').wakes ==
      map[w := WakeInProgress(id, port, [], false), cfg.manager := WakeInProgress(id, port, [], false)]
  {
    cs', actions' := TwoPacketsRun(cfg, cs, actions, id, port, w);
    hide Init, StepAt, ArmedEverywhere, Drain;
    cs', actions' := DrainRun(cfg, cs', actions', cfg.manager);
    cs', actions' := DrainRun(cfg, cs', actions', w);
  }

  /** Taken in pieces, a wake can outlive the sleep it answers. From any initial state with a service
      at one replica and a second node, a run leads to a state without any wake in which the service
      runs and its port is armed on every node: a worker's wake has started the service and a
      timeout put it back to sleep before the manager's wake, its removals all sent, scales it. */
  lemma StaleWakeLeavesPortArmed(cfg: Config, c: State, id: string, port: uint32, w: string)
    returns (cs: seq<State>, actions: seq<Action>)
    requires Init(cfg, c) && Owns(c.Services(), id, port) && c.Services()[id].replicas == 1
    requires w in cfg.others && w != cfg.manager
    ensures IsRun(cfg, cs, actions) && cs[0] == c && Last(cs).wakes == map[]
    ensures Calm(Last(cs), id, port, 1) && ArmedEverywhere(Last(cs).world.ports, id, port)
    ensures !AgreesOn(Last(cs), id)
  {
    var m := cfg.manager;
    cs, actions := [c], [];
    cs, actions := SleepRun(cfg, cs, actions, id, port);
    cs, actions := TwoWakesRun(cfg, cs, actions, id, port, w);
    cs, actions := Extended(cfg, cs, actions, Finish(w, ALL_SUCCEED));
    assert Last(cs).wakes == map[m := WakeInProgress(id, port, [], false)];
    cs, actions := SleepRun(cfg, cs, actions, id, port);
    cs, actions := Extended(cfg, cs, actions, Finish(m, ALL_SUCCEED));
    RunKeepsStructure(cfg, cs, actions, |actions|);
    SleepsOrRuns(cfg, Last(cs), id);
  }
}
