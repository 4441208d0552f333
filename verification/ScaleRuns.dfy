/** What every run of requests, timeouts and wakes keeps on the manager (autoscaler/scale/scale.go). */
module ScaleRuns {
  import opened Prelude
  import opened Scale

  datatype Action =
    | Ask(id: string, direction: string, api: Api)       // a scaling request
    | Expire(channel: nat, completed: bool)              // a keep-alive timer fires
    | Revive(id: string, succeeds: bool)                 // the port listener scales to 1

  /** A completed timeout found its entry and a published port. Scaling a service that is not
      replicated is a nil dereference in the source. */
  predicate Enabled(s: ScaleState, a: Action) {
    match a
    case Ask(_, _, _) => true
    case Expire(c, completed) =>
      && c in s.waiting
      && (completed ==>
        var id := s.waiting[c];
        id in s.ops && id in s.services && s.services[id].publishedPorts != [])
    case Revive(id, _) => id in s.services ==> s.services[id].replicated
  }

  function Next(s: ScaleState, a: Action): ScaleState
    requires Enabled(s, a)
  {
    match a
    case Ask(id, direction, api) => Request(s, id, direction, api).0
    case Expire(c, completed) => Expired(s, c, completed)
    case Revive(id, succeeds) => Scaled(s, id, 1, succeeds).0
  }

  /** A run starts without keep-alive operations, at any replica counts. */
  ghost predicate IsRun(ss: seq<ScaleState>, actions: seq<Action>) {
    && |ss| == |actions| + 1 && ss[0].ops == map[] && ss[0].waiting == map[]
    && forall i | 0 <= i < |actions| :: Enabled(ss[i], actions[i]) && ss[i + 1] == Next(ss[i], actions[i])
  }

  /** A goroutine waits on exactly the channel stored for its service, and an entry is only ever
      held by a replicated service with at most one replica. */
  ghost predicate Inv(s: ScaleState) {
    && (forall c | c in s.waiting :: c < s.next && s.waiting[c] in s.ops && s.ops[s.waiting[c]] == c)
    && (forall id | id in s.ops ::
      && s.ops[id] < s.next && id in s.services
      && s.services[id].replicated && s.services[id].replicas <= 1)
    && (forall a, b | a in s.ops && b in s.ops && a != b :: s.ops[a] != s.ops[b])
  }

  lemma ScaledKeepsInv(s: ScaleState, id: string, replicas: uint64, succeeds: bool)
    requires Inv(s) && (id in s.ops ==> replicas <= 1)
    ensures Inv(Scaled(s, id, replicas, succeeds).0)
  {
  }

  lemma ConstrainedKeepsInv(s: ScaleState, id: string, add: bool)
    requires Inv(s) && id in s.services
    ensures Inv(WithService(s, id, Constrained(s.services[id], add)))
  {
  }

  lemma CancelKeepsInv(s: ScaleState, id: string)
    requires Inv(s) && id in s.ops && s.ops[id] in s.waiting
    ensures Inv(s.(ops := s.ops - {id}, waiting := s.waiting - {s.ops[id]}))
  {
  }

  lemma OverKeepsInv(s: ScaleState, id: string, api: Api)
    requires Inv(s) && id in s.services
    ensures Inv(Over(s, id, api).0)
  {
    ConstrainedKeepsInv(s, id, false);
    var u, r := BeforeCancel(s, id), Next64(s.services[id].replicas);
    if id in u.ops && u.ops[id] in u.waiting {
      CancelKeepsInv(u, id);
      ScaledKeepsInv(u.(ops := u.ops - {id}, waiting := u.waiting - {u.ops[id]}), id, r, api.scale);
    } else if id !in u.ops {
      ScaledKeepsInv(u, id, r, api.scale);
    }
  }

  lemma UnderKeepsInv(s: ScaleState, id: string, api: Api)
    requires Inv(s) && id in s.services && s.services[id].replicated
    ensures Inv(Under(s, id, api).0)
  {
    if s.services[id].replicas > 1 {
      ConstrainedKeepsInv(s, id, true);
      var u := if s.services[id].replicas == 2 then WithService(s, id, Constrained(s.services[id], true)) else s;
      ScaledKeepsInv(u, id, s.services[id].replicas - 1, api.scale);
    }
  }

  lemma AskKeepsInv(s: ScaleState, id: string, direction: string, api: Api)
    requires Inv(s)
    ensures Inv(Request(s, id, direction, api).0)
  {
    if api.inspect && id in s.services && s.services[id].replicated {
      OverKeepsInv(s, id, api);
      UnderKeepsInv(s, id, api);
    }
  }

  lemma StepKeepsInv(s: ScaleState, a: Action)
    requires Inv(s) && Enabled(s, a)
    ensures Inv(Next(s, a))
  {
    match a
    case Ask(id, direction, api) => AskKeepsInv(s, id, direction, api);
    case Expire(c, completed) =>
    case Revive(id, succeeds) => ScaledKeepsInv(s, id, 1, succeeds);
  }

  lemma {:induction false} RunKeepsInv(ss: seq<ScaleState>, actions: seq<Action>, i: nat)
    requires IsRun(ss, actions) && i <= |actions|
    ensures Inv(ss[i])
  {
    if i > 0 {
      RunKeepsInv(ss, actions, i - 1);
      StepKeepsInv(ss[i - 1], actions[i - 1]);
    }
  }

  /** Keep-alive discipline: in every run a service has at most one waiting goroutine, on the channel
      stored for it, and a stored entry means that at most one replica is left. */
  lemma KeepAliveDiscipline(ss: seq<ScaleState>, actions: seq<Action>, i: nat, id: string)
    requires IsRun(ss, actions) && i <= |actions|
    ensures forall c, d |
        c in ss[i].waiting && d in ss[i].waiting && ss[i].waiting[c] == id && ss[i].waiting[d] == id ::
      c == d && id in ss[i].ops && ss[i].ops[id] == c
    ensures id in ss[i].ops ==> id in ss[i].services && ss[i].services[id].replicas <= 1
  {
    RunKeepsInv(ss, actions, i);
  }

  // ----- how a step moves the replicas -----

  predicate AsksFor(a: Action, id: string, direction: string) {
    a.Ask? && a.id == id && a.direction == direction
  }

  /** What no step changes: which services exist, their mode, label and published ports. */
  ghost predicate SameServices(a: map<string, Service>, b: map<string, Service>) {
    && a.Keys == b.Keys
    && forall id | id in a ::
      && a[id].publishedPorts == b[id].publishedPorts && a[id].replicated == b[id].replicated
      && a[id].handler == b[id].handler
  }

  /** The services after a request on `id`: all others as they were, `id` with `replicas`. */
  ghost predicate OnlyReplicas(s: ScaleState, s': ScaleState, id: string, replicas: uint64)
    requires id in s.services
  {
    && SameServices(s.services, s'.services) && s'.services[id].replicas == replicas
    && forall x | x in s.services && x != id :: s'.services[x] == s.services[x]
  }

  lemma ConstrainedMovesNone(s: ScaleState, id: string, add: bool)
    requires id in s.services
    ensures OnlyReplicas(s, WithService(s, id, Constrained(s.services[id], add)), id, s.services[id].replicas)
  {
  }

  lemma ScaledMovesReplicas(s: ScaleState, id: string, replicas: uint64, succeeds: bool)
    requires id in s.services
    ensures var (s', reply) := Scaled(s, id, replicas, succeeds);
      OnlyReplicas(s, s', id, if reply == Done then replicas else s.services[id].replicas)
  {
  }

  lemma OverMovesReplicas(s: ScaleState, id: string, api: Api)
    requires id in s.services
    ensures var (s', reply) := Over(s, id, api);
      OnlyReplicas(s, s', id, if reply == Done then Next64(s.services[id].replicas) else s.services[id].replicas)
  {
    ConstrainedMovesNone(s, id, false);
    var u := BeforeCancel(s, id);
    assert OnlyReplicas(s, u, id, s.services[id].replicas);
    var c := if id in u.ops then u.(ops := u.ops - {id}, waiting := u.waiting - {u.ops[id]}) else u;
    ScaledMovesReplicas(c, id, Next64(s.services[id].replicas), api.scale);
    hide BeforeCancel, Constrained, Scaled, Next64;
  }

  lemma UnderMovesReplicas(s: ScaleState, id: string, api: Api)
    requires id in s.services
    ensures var (s', reply) := Under(s, id, api);
      var r := s.services[id].replicas;
      OnlyReplicas(s, s', id, if reply == Done && r > 1 then r - 1 else r)
  {
  }

  lemma AskMovesReplicas(s: ScaleState, a: Action, id: string)
    requires Inv(s) && a.Ask?
    ensures Next(s, a).services.Keys == s.services.Keys
    ensures id in s.services ==>
      var r, r' := s.services[id].replicas, Next(s, a).services[id].replicas;
      r' == r || (AsksFor(a, id, "over") && r' == Next64(r)) || (AsksFor(a, id, "under") && r >= 2 && r' == r - 1)
  {
    if a.id in s.services {
      OverMovesReplicas(s, a.id, a.api);
      UnderMovesReplicas(s, a.id, a.api);
    }
  }

  /** No step touches another service, an `over` adds one replica or none, an `under` takes one or
      none and never the last, a timeout takes the last one, a wake leaves one. */
  lemma StepMovesReplicas(s: ScaleState, a: Action, id: string)
    requires Inv(s) && Enabled(s, a)
    ensures Next(s, a).services.Keys == s.services.Keys
    ensures id in s.services ==>
      var r, r' := s.services[id].replicas, Next(s, a).services[id].replicas;
      || r' == r
      || (AsksFor(a, id, "over") && r' == Next64(r))
      || (AsksFor(a, id, "under") && r >= 2 && r' == r - 1)
      || (a.Expire? && a.completed && s.waiting[a.channel] == id && r == 1 && r' == 0)
      || (a.Revive? && a.id == id && r' == 1)
  {
    match a
    case Ask(x, direction, api) => AskMovesReplicas(s, a, id);
    case Expire(c, completed) =>
    case Revive(x, succeeds) =>
  }

  const FULL: uint64 := 0xFFFF_FFFF_FFFF_FFFF

  /** A successful `over` request that wraps the count to 0. */
  predicate Wraps(s: ScaleState, id: string, direction: string, api: Api) {
    && direction == "over" && api.inspect && api.scale
    && id in s.services && s.services[id].replicated && s.services[id].replicas == FULL
  }

  /** A completed timeout of service `id`. */
  predicate TakesLast(s: ScaleState, a: Action, id: string) {
    a.Expire? && a.completed && a.channel in s.waiting && s.waiting[a.channel] == id
  }

  /** A running service goes to 0 exactly in a completed timeout, at its last replica, or by wrapping. */
  lemma FallsToZeroExactly(s: ScaleState, a: Action, id: string)
    requires Inv(s) && Enabled(s, a) && id in s.services && s.services[id].replicas > 0
    ensures id in Next(s, a).services
    ensures Next(s, a).services[id].replicas == 0 <==>
      TakesLast(s, a, id) || (a.Ask? && a.id == id && Wraps(s, id, a.direction, a.api))
    ensures TakesLast(s, a, id) ==> s.services[id].replicas == 1 && id in s.ops
  {
    StepMovesReplicas(s, a, id);
    if a.Ask? && a.id == id && s.services[id].replicas == FULL { OverMovesReplicas(s, id, a.api); }
  }

  lemma AskKeepsServices(s: ScaleState, a: Action)
    requires a.Ask?
    ensures SameServices(s.services, Next(s, a).services)
  {
    if a.id in s.services {
      OverMovesReplicas(s, a.id, a.api);
      UnderMovesReplicas(s, a.id, a.api);
    }
  }

  lemma StepKeepsServices(s: ScaleState, a: Action)
    requires Enabled(s, a)
    ensures SameServices(s.services, Next(s, a).services)
  {
    match a
    case Ask(_, _, _) => AskKeepsServices(s, a);
    case Expire(_, _) =>
    case Revive(_, _) =>
  }

  // ----- entries that have lost their goroutine -----

  /** An entry nobody waits on: an `over` request blocks on it, an `under` request is ignored. */
  predicate Orphan(s: ScaleState, id: string) {
    id in s.ops && s.ops[id] !in s.waiting
  }

  /** A timeout of service `id` that returned early. */
  predicate FailedTimeout(s: ScaleState, a: Action, id: string) {
    a.Expire? && !a.completed && a.channel in s.waiting && s.waiting[a.channel] == id
  }

  lemma OverMovesOrphan(s: ScaleState, x: string, api: Api, id: string)
    requires Inv(s) && x in s.services
    ensures Orphan(Over(s, x, api).0, id) <==> Orphan(s, id)
  {
    if id in s.ops && x != id && x in s.ops { assert s.ops[x] != s.ops[id]; }
  }

  lemma UnderMovesOrphan(s: ScaleState, x: string, api: Api, id: string)
    requires Inv(s) && x in s.services
    ensures Orphan(Under(s, x, api).0, id) <==> Orphan(s, id)
  {
  }

  // ----- how a request is answered -----

  /** An `over` request of an inspected, replicated service succeeds exactly if the scaling does, its
      keep-alive entry, if any, has a receiver, and the pin of a last replica can be lifted; it then
      adds one replica. Once past the pin it ends the keep-alive operation, whether the scaling
      succeeds or not -- or blocks, exactly on an entry without receiver. */
  lemma OverAnswersExactly(s: ScaleState, id: string, api: Api)
    requires Inv(s) && id in s.services && s.services[id].replicated && api.inspect
    ensures var (s', reply) := Request(s, id, "over", api);
      var svc := s.services[id];
      var pinFails := svc.replicas == 1 && svc.handler.Some? && !api.pin;
      && (reply == Done <==> api.scale && !Orphan(s, id) && !pinFails)
      && (reply == Blocked <==> Orphan(s, id) && !pinFails)
      && id in s'.services && s'.next == s.next
      && s'.services[id].replicas ==
         (if reply != Done then svc.replicas else if svc.replicas == 0xFFFF_FFFF_FFFF_FFFF then 0 else svc.replicas + 1)
      && (if pinFails then s' == s
          else if Orphan(s, id) then s'.ops == s.ops && s'.waiting == s.waiting
          else id !in s'.ops && s'.ops == s.ops - {id} && forall c ::
            c in s'.waiting <==> c in s.waiting && s.waiting[c] != id)
  {
    var svc := s.services[id];
    if !(svc.replicas == 1 && svc.handler.Some? && !api.pin) && !Orphan(s, id) && id !in s.ops {
      assert s.ops - {id} == s.ops;
    }
  }

  /** An `under` request above one replica succeeds exactly if the scaling does and the pin of the
      last replica can be set; it then takes one replica, and no keep-alive operation moves. At one
      replica or none it always succeeds, and a keep-alive operation waits for the service: the one
      already there, or a new one on a channel of its own. */
  lemma UnderAnswersExactly(s: ScaleState, id: string, api: Api)
    requires id in s.services && s.services[id].replicated && api.inspect
    ensures var (s', reply) := Request(s, id, "under", api);
      var svc := s.services[id];
      var pinFails := svc.replicas == 2 && svc.handler.Some? && !api.pin;
      && id in s'.services
      && (svc.replicas >= 2 ==>
        && reply == (if api.scale && !pinFails then Done else Failed)
        && s'.services[id].replicas == (if reply == Done then svc.replicas - 1 else svc.replicas)
        && s'.ops == s.ops && s'.waiting == s.waiting && s'.next == s.next)
      && (svc.replicas <= 1 ==>
        && reply == Done && s'.services == s.services && id in s'.ops
        && (id in s.ops ==> s' == s)
        && (id !in s.ops ==>
          && s'.ops == s.ops[id := s.next] && s'.waiting == s.waiting[s.next := id] && s'.next == s.next + 1))
  {
  }

  /** Every other request fails and changes nothing. */
  lemma OtherRequestsFail(s: ScaleState, id: string, direction: string, api: Api)
    requires !api.inspect || id !in s.services || !s.services[id].replicated || direction !in {"over", "under"}
    ensures Request(s, id, direction, api) == (s, Failed)
  {
  }

  /** The constraint a request leaves: cleared by an `over` at the last replica, set by an `under`
      at two -- if the service is labelled and the update succeeds -- and untouched otherwise. */
  lemma RequestConstrains(s: ScaleState, id: string, direction: string, api: Api)
    requires id in s.services
    ensures var s' := Request(s, id, direction, api).0;
      var svc, svc' := s.services[id], s'.services[id];
      var updates := svc.replicated && api.inspect && api.pin && svc.handler.Some? &&
        ((direction == "over" && svc.replicas == 1) || (direction == "under" && svc.replicas == 2));
      if updates then forall h: string :: MayRunOn(svc', h) <==> (direction == "under" ==> h == svc.handler.value)
      else svc'.constraints == svc.constraints
  {
    var svc := s.services[id];
    var after := Constrained(svc, direction == "under");
    ConstrainedPlacement(svc, direction == "under");
    var svc' := Request(s, id, direction, api).0.services[id];
    assert svc'.constraints == svc.constraints || svc'.constraints == after.constraints;
    if svc'.constraints == after.constraints { SamePlacement(svc', after); }
  }

  lemma AskMovesOrphan(s: ScaleState, a: Action, id: string)
    requires Inv(s) && a.Ask?
    ensures Orphan(Next(s, a), id) <==> Orphan(s, id)
  {
    if a.id in s.services && a.api.inspect && s.services[a.id].replicated {
      OverMovesOrphan(s, a.id, a.api, id);
      UnderMovesOrphan(s, a.id, a.api, id);
    }
    hide Over, Under;
  }

  lemma StepMovesOrphan(s: ScaleState, a: Action, id: string)
    requires Inv(s) && Enabled(s, a)
    ensures Orphan(Next(s, a), id) <==> Orphan(s, id) || FailedTimeout(s, a, id)
  {
    match a
    case Ask(x, direction, api) => AskMovesOrphan(s, a, id);
    case Expire(c, completed) =>
    case Revive(x, succeeds) =>
  }

  /** An entry is without receiver exactly when a timeout of its service has failed. */
  lemma {:induction false} OrphanExactly(ss: seq<ScaleState>, actions: seq<Action>, i: nat, id: string)
    requires IsRun(ss, actions) && i <= |actions|
    ensures Orphan(ss[i], id) <==> exists k | 0 <= k < i :: FailedTimeout(ss[k], actions[k], id)
  {
    if i > 0 {
      OrphanExactly(ss, actions, i - 1, id);
      RunKeepsInv(ss, actions, i - 1);
      StepMovesOrphan(ss[i - 1], actions[i - 1], id);
    }
  }

  /** So an `over` request that reaches the cancellation finds its receiver exactly when no timeout
      of the service has failed; it then leaves neither entry nor goroutine behind. */
  lemma OverFindsReceiverExactly(ss: seq<ScaleState>, actions: seq<Action>, i: nat, id: string, api: Api)
    requires IsRun(ss, actions) && i <= |actions|
    requires api.inspect && api.pin && id in ss[i].services && ss[i].services[id].replicated
    ensures var (s', reply) := Request(ss[i], id, "over", api);
      && (reply != Blocked <==> forall k | 0 <= k < i :: !FailedTimeout(ss[k], actions[k], id))
      && (reply != Blocked ==> id !in s'.ops && forall c | c in s'.waiting :: s'.waiting[c] != id)
  {
    OrphanExactly(ss, actions, i, id);
    RunKeepsInv(ss, actions, i);
    AskKeepsInv(ss[i], id, "over", api);
  }

  // ----- the history of a scale to zero -----

  /** An `under` request that starts a keep-alive operation. */
  predicate StartsKeepAlive(s: ScaleState, a: Action, id: string) {
    && AsksFor(a, id, "under") && a.api.inspect && id in s.services && s.services[id].replicated
    && s.services[id].replicas <= 1 && id !in s.ops
  }

  /** An `over` request that got past the cancellation, whether or not the scaling succeeded. */
  predicate Cancels(s: ScaleState, a: Action, id: string) {
    && AsksFor(a, id, "over") && a.api.inspect && id in s.services && s.services[id].replicated
    && !(s.services[id].replicas == 1 && ConstraintFails(s.services[id], a.api))
    && Over(s, id, a.api).1 != Blocked
  }

  lemma OverMovesEntry(s: ScaleState, id: string, api: Api, x: string)
    requires Inv(s) && id in s.services && x in Over(s, id, api).0.ops
    ensures x in s.ops && Over(s, id, api).0.ops[x] == s.ops[x]
    ensures x == id ==>
      (s.services[id].replicas == 1 && ConstraintFails(s.services[id], api)) || Over(s, id, api).1 == Blocked
  {
  }

  lemma UnderMovesEntry(s: ScaleState, id: string, api: Api, x: string)
    requires Inv(s) && id in s.services && x in Under(s, id, api).0.ops
    ensures if x in s.ops then Under(s, id, api).0.ops[x] == s.ops[x]
            else x == id && s.services[id].replicas <= 1 && Under(s, id, api).0.ops[x] == s.next
  {
  }

  lemma StepMovesEntry(s: ScaleState, a: Action, id: string)
    requires Inv(s) && Enabled(s, a) && id in Next(s, a).ops
    ensures !Cancels(s, a, id)
    ensures if id in s.ops then Next(s, a).ops[id] == s.ops[id]
            else StartsKeepAlive(s, a, id) && Next(s, a).ops[id] == s.next
  {
    match a
    case Ask(x, direction, api) =>
      if x in s.services && direction == "over" && id in Over(s, x, api).0.ops { OverMovesEntry(s, x, api, id); }
      if x in s.services && direction == "under" && id in Under(s, x, api).0.ops { UnderMovesEntry(s, x, api, id); }
      hide Over, Under;
    case Expire(c, completed) =>
    case Revive(x, succeeds) =>
  }

  lemma EntryStep(ss: seq<ScaleState>, actions: seq<Action>, i: nat, id: string)
    requires IsRun(ss, actions) && i < |actions| && id in ss[i + 1].ops
    ensures !Cancels(ss[i], actions[i], id)
    ensures if id in ss[i].ops then ss[i + 1].ops[id] == ss[i].ops[id]
            else StartsKeepAlive(ss[i], actions[i], id) && ss[i + 1].ops[id] == ss[i].next
  {
    RunKeepsInv(ss, actions, i);
    StepMovesEntry(ss[i], actions[i], id);
  }

  /** No `over` request for the service completed its cancellation after step `j` and before step `i`. */
  ghost predicate Uncancelled(ss: seq<ScaleState>, actions: seq<Action>, id: string, j: nat, i: nat)
    requires |ss| == |actions| + 1 && i <= |actions|
  {
    forall k | j < k < i :: !Cancels(ss[k], actions[k], id)
  }

  /** Where the entry of a service came from. */
  lemma {:induction false} EntryOrigin(ss: seq<ScaleState>, actions: seq<Action>, i: nat, id: string) returns (j: nat)
    requires IsRun(ss, actions) && i <= |actions| && id in ss[i].ops
    ensures j < i && StartsKeepAlive(ss[j], actions[j], id) && ss[i].ops[id] == ss[j].next
    ensures Uncancelled(ss, actions, id, j, i)
  {
    j := i - 1;
    EntryStep(ss, actions, j, id);
    if id in ss[j].ops {
      j := EntryOrigin(ss, actions, j, id);
    }
  }

  /** Scale-to-zero history: a running service goes to 0 exactly in a completed timeout or when an
      `over` request wraps the 64-bit count; the timeout is that of an `under` request accepted at one
      replica or none, with no completed `over` request in between. */
  lemma ScaleToZeroHistory(ss: seq<ScaleState>, actions: seq<Action>, i: nat, id: string) returns (j: nat)
    requires IsRun(ss, actions) && i < |actions| && id in ss[i].services && ss[i].services[id].replicas > 0
    ensures id in ss[i + 1].services
    ensures ss[i + 1].services[id].replicas == 0 <==>
      || TakesLast(ss[i], actions[i], id)
      || (actions[i].Ask? && actions[i].id == id && Wraps(ss[i], id, actions[i].direction, actions[i].api))
    ensures TakesLast(ss[i], actions[i], id) ==>
      && ss[i].services[id].replicas == 1
      && j < i && StartsKeepAlive(ss[j], actions[j], id) && actions[i].channel == ss[j].next
      && Uncancelled(ss, actions, id, j, i)
  {
    RunKeepsInv(ss, actions, i);
    FallsToZeroExactly(ss[i], actions[i], id);
    j := i;
    if TakesLast(ss[i], actions[i], id) {
      j := EntryOrigin(ss, actions, i, id);
    }
  }

  // ----- the placement pin -----

  /** A labelled service is pinned to its handler node exactly while at most one replica is left. */
  ghost predicate PinFollows(svc: Service) {
    svc.handler.Some? ==> (PinnedTo(svc, svc.handler.value) <==> svc.replicas <= 1)
  }

  ghost predicate AllPinsFollow(s: ScaleState) {
    forall id | id in s.services :: PinFollows(s.services[id])
  }

  /** A request or wake that parts the pin of labelled service `id` from its count: the constraint is
      updated and the scaling then blocks or fails, the count wraps, or a wake finds several replicas. */
  predicate LosesPin(s: ScaleState, a: Action, id: string) {
    id in s.services && s.services[id].handler.Some? &&
    match a
    case Ask(x, direction, api) =>
      && x == id && api.inspect && s.services[id].replicated
      && if direction == "over" then
           || (s.services[id].replicas == 1 && api.pin && (Orphan(s, id) || !api.scale))
           || (s.services[id].replicas == FULL && api.scale)
         else direction == "under" && s.services[id].replicas == 2 && api.pin && !api.scale
    case Expire(_, _) => false
    case Revive(x, succeeds) => x == id && succeeds && s.services[id].replicas >= 2
  }

  predicate KeepsPins(s: ScaleState, a: Action) {
    forall id | id in s.services :: !LosesPin(s, a, id)
  }

  lemma OverMovesPin(s: ScaleState, id: string, api: Api)
    requires Inv(s) && id in s.services && s.services[id].replicated && api.inspect && PinFollows(s.services[id])
    ensures id in Over(s, id, api).0.services
    ensures PinFollows(Over(s, id, api).0.services[id]) <==> !LosesPin(s, Ask(id, "over", api), id)
  {
    var svc, svc' := s.services[id], Over(s, id, api).0.services[id];
    if svc.replicas == 1 && !ConstraintFails(svc, api) {
      ConstrainedPlacement(svc, false);
      SamePlacement(svc', Constrained(svc, false));
    } else {
      SamePlacement(svc', svc);
    }
    hide PinnedTo;
  }

  lemma UnderMovesPin(s: ScaleState, id: string, api: Api)
    requires id in s.services && s.services[id].replicated && api.inspect && PinFollows(s.services[id])
    ensures id in Under(s, id, api).0.services
    ensures PinFollows(Under(s, id, api).0.services[id]) <==> !LosesPin(s, Ask(id, "under", api), id)
  {
    var svc, svc' := s.services[id], Under(s, id, api).0.services[id];
    if svc.replicas == 2 && !ConstraintFails(svc, api) {
      ConstrainedPlacement(svc, true);
      SamePlacement(svc', Constrained(svc, true));
    } else {
      SamePlacement(svc', svc);
    }
    hide PinnedTo;
  }

  lemma StepMovesPin(s: ScaleState, a: Action, id: string)
    requires Inv(s) && Enabled(s, a) && id in s.services && PinFollows(s.services[id])
    ensures id in Next(s, a).services && (PinFollows(Next(s, a).services[id]) <==> !LosesPin(s, a, id))
  {
    hide PinnedTo;
    match a
    case Ask(x, direction, api) =>
      if x in s.services && s.services[x].replicated && api.inspect {
        if x == id {
          OverMovesPin(s, id, api);
          UnderMovesPin(s, id, api);
        } else {
          OverMovesReplicas(s, x, api);
          UnderMovesReplicas(s, x, api);
        }
        hide Over, Under;
      }
    case Expire(c, completed) =>
      SamePlacement(Next(s, a).services[id], s.services[id]);
      StepMovesReplicas(s, a, id);
    case Revive(x, succeeds) =>
      SamePlacement(Next(s, a).services[id], s.services[id]);
  }

  lemma StepKeepsPinsExactly(s: ScaleState, a: Action)
    requires Inv(s) && Enabled(s, a) && AllPinsFollow(s)
    ensures AllPinsFollow(Next(s, a)) <==> KeepsPins(s, a)
  {
    StepKeepsServices(s, a);
    forall id | id in s.services
      ensures PinFollows(Next(s, a).services[id]) <==> !LosesPin(s, a, id)
    {
      assert PinFollows(s.services[id]);
      StepMovesPin(s, a, id);
    }
  }

  /** The placement pin follows the replicas through a run, whatever fails in it, if and only if no
      step loses a pin. */
  lemma PinFollowsReplicas(ss: seq<ScaleState>, actions: seq<Action>, i: nat)
    requires IsRun(ss, actions) && i <= |actions| && AllPinsFollow(ss[0])
    ensures (forall k | 0 <= k <= i :: AllPinsFollow(ss[k])) <==>
      (forall k | 0 <= k < i :: KeepsPins(ss[k], actions[k]))
  {
    forall k | 0 <= k < i && AllPinsFollow(ss[k])
      ensures AllPinsFollow(ss[k + 1]) <==> KeepsPins(ss[k], actions[k])
    {
      RunKeepsInv(ss, actions, k);
      StepKeepsPinsExactly(ss[k], actions[k]);
    }
    hide AllPinsFollow, KeepsPins;
    StepwiseExactly(ss, actions, s => AllPinsFollow(s), (s, a) => KeepsPins(s, a), 0, i);
  }

  /** A wake that scales a labelled service down from several replicas leaves it unpinned: the pin
      survives a wake exactly when it came at one replica or none. */
  lemma WakeKeepsPinExactly(s: ScaleState, id: string)
    requires Inv(s) && id in s.services && s.services[id].replicated && s.services[id].handler.Some?
    requires PinFollows(s.services[id])
    ensures PinFollows(Next(s, Revive(id, true)).services[id]) <==> s.services[id].replicas <= 1
  {
    StepMovesPin(s, Revive(id, true), id);
  }
}
