/** The watcher itself: an object whose handlers change its stores, status lists and queue in place.
    Each method is proved against the function that the theorems of the other modules are about. */
module Watcher {
  import opened Strings
  import opened Kubernetes
  import opened Mirror
  import opened StatusList
  import opened Federation
  import opened Api
  import opened HeadlessMirror
  import opened Handlers
  import opened Machine
  import Effects
  import Liveness
  import Refinement

  type State = Api.State

  /* ---------- what holds once a run has drained the queue ---------- */

  function Moves(trace: seq<Choice>): (moves: seq<Liveness.Move>)
    ensures |moves| == |trace|
  {
    seq(|trace|, i requires 0 <= i < |trace| => Liveness.Process(trace[i].index, trace[i].env))
  }

  lemma {:induction false} RunIsAfter(cfg: Config, sys: System, trace: seq<Choice>)
    requires Follows(cfg, sys, trace) && Liveness.AdmissibleRun(cfg, sys, Moves(trace))
    ensures Liveness.After(cfg, sys, Moves(trace)) == Run(cfg, sys, trace)
    decreases |trace|
  {
    hide Step, Liveness.Admissible;
    if trace != [] {
      assert Moves(trace)[1..] == Moves(trace[1..]);
      RunIsAfter(cfg, Step(cfg, sys, trace[0].index, trace[0].env), trace[1..]);
    }
  }

  /** With the queue drained no repair is on its way, so a dead gateway has no ready service in front of it. */
  lemma DrainedIsProtected(cfg: Config, sys: System, trace: seq<Choice>)
    requires Follows(cfg, sys, trace) && Run(cfg, sys, trace).queue == []
    requires Liveness.Consistent(cfg, sys) && Liveness.Shielded(cfg, sys)
    requires Liveness.AdmissibleRun(cfg, sys, Moves(trace))
    ensures Run(cfg, sys, trace).st.gatewayAlive || Effects.Protected(cfg, Run(cfg, sys, trace).st)
  {
    hide Run, Follows, Liveness.Consistent, Liveness.Shielded, Liveness.AdmissibleRun, Effects.Protected;
    RunIsAfter(cfg, sys, trace);
    Liveness.LivenessSafety(cfg, sys, Moves(trace));
  }

  lemma {:induction false} RunIsConsistent(cfg: Config, sys: System, trace: seq<Choice>)
    requires Follows(cfg, sys, trace) && Liveness.Consistent(cfg, sys)
    ensures Liveness.Consistent(cfg, Run(cfg, sys, trace))
    decreases |trace|
  {
    hide Step, Liveness.Consistent;
    if trace != [] {
      Liveness.StepConsistent(cfg, sys, trace[0].index, trace[0].env);
      RunIsConsistent(cfg, Step(cfg, sys, trace[0].index, trace[0].env), trace[1..]);
    }
  }

  /* ---------- the loops ---------- */

  lemma FreshOfConcat(a: seq<Event>, b: seq<Event>, id: nat)
    ensures Fresh(a + b, id) == Fresh(a, id) + Fresh(b, id + |a|)
  {
  }

  lemma FreshOfAppend(events: seq<Event>, ev: Event, id: nat)
    ensures Fresh(events + [ev], id) == Fresh(events, id) + [Item(id + |events|, ev, 0)]
  {
  }

  /** Deleting one service after a set of others. */
  lemma PurgeOneMore(env: Env, st: State, keys: set<Key>, k: Key)
    requires k !in keys
    ensures Purge(env, st, keys + {k}) == DeleteService(env, Purge(env, st, keys), k).0
  {
    var gone := set n | n in keys && n in st.services && env.ok(DeleteServiceCall(n));
    var more := set n | n in keys + {k} && n in st.services && env.ok(DeleteServiceCall(n));
    assert more == if k in st.services && env.ok(DeleteServiceCall(k)) then gone + {k} else gone;
    assert Purge(env, st, keys + {k}).services == DeleteService(env, Purge(env, st, keys), k).0.services;
    assert Purge(env, st, keys + {k}).endpoints == DeleteService(env, Purge(env, st, keys), k).0.endpoints;
  }

  lemma PurgeEndpointsOneMore(env: Env, st: State, keys: set<Key>, k: Key)
    requires k !in keys
    ensures PurgeEndpoints(env, st, keys + {k}) == DeleteEndpoints(env, PurgeEndpoints(env, st, keys), k).0
  {
    assert PurgeEndpoints(env, st, keys + {k}).endpoints
             == DeleteEndpoints(env, PurgeEndpoints(env, st, keys), k).0.endpoints;
  }

  /** The keys a loop over a listing has dealt with. */
  function Seen(keys: seq<Key>): set<Key> {
    set k | k in keys
  }

  lemma SeenNext(keys: seq<Key>, all: set<Key>, i: nat)
    requires Enumerates(keys, all) && i < |keys|
    ensures Seen(keys[..i + 1]) == Seen(keys[..i]) + {keys[i]} && keys[i] !in Seen(keys[..i]) && keys[i] in all
  {
  }

  lemma SeenAll(keys: seq<Key>, all: set<Key>)
    requires Enumerates(keys, all)
    ensures Seen(keys[..|keys|]) == all
  {
    assert keys[..|keys|] == keys;
  }

  lemma Listed(env: Env, keys: set<Key>)
    requires ValidEnv(env)
    ensures Enumerates(env.list(keys), keys)
  {
  }

  lemma NothingSeen(keys: seq<Key>)
    ensures Seen(keys[..0]) == {}
  {
  }

  lemma NothingPurged(env: Env, st: State, keys: seq<Key>)
    ensures Seen(keys[..0]) == {} && Purge(env, st, Seen(keys[..0])) == st
  {
    PurgeNone(env, st);
  }

  lemma PurgeNone(env: Env, st: State)
    ensures Purge(env, st, {}) == st
  {
    assert Purge(env, st, {}).services == st.services;
    assert Purge(env, st, {}).endpoints == st.endpoints;
  }

  lemma NoEndpointsPurged(env: Env, st: State, keys: seq<Key>)
    ensures PurgeEndpoints(env, st, Seen(keys[..0])) == st
  {
    assert PurgeEndpoints(env, st, {}).endpoints == st.endpoints;
  }

  lemma PurgeKeepsOthers(env: Env, st: State, keys: set<Key>, k: Key)
    requires k in st.services && k !in keys
    ensures k in Purge(env, st, keys).services
  {
  }

  lemma DeleteFails(env: Env, st: State, k: Key)
    ensures DeleteService(env, st, k).1 == Failed <==> !env.ok(DeleteServiceCall(k))
    ensures k in st.services ==> (DeleteService(env, st, k).1 == Ok <==> env.ok(DeleteServiceCall(k)))
  {
  }

  lemma DeleteEndpointsFails(env: Env, st: State, k: Key)
    ensures DeleteEndpoints(env, st, k).1 == Failed <==> !env.ok(DeleteEndpointsCall(k))
  {
  }

  predicate CollectionFails(cfg: Config, remote: Remote, env: Env, st: State, k: Key)
    requires k in st.services
  {
    var origin := OriginOf(cfg, k, st.services[k]);
    !env.ok(RemoteGetService(origin)) || (origin !in remote.services && !env.ok(DeleteServiceCall(k)))
  }

  lemma CollectionFailure(cfg: Config, remote: Remote, env: Env, st: State)
    requires env.ok(ListServices)
    ensures HandleGc(cfg, remote, env, st).1 ==
            if exists k :: k in LinkServices(cfg, st) && CollectionFails(cfg, remote, env, st, k) then Retry else Done
  {
    hide OfLink, OriginOf;
    if k :| k in LinkServices(cfg, st) && CollectionFails(cfg, remote, env, st, k) {
      assert k in LinkServices(cfg, st);
      if env.ok(RemoteGetService(OriginOf(cfg, k, st.services[k]))) {
        assert k in Orphans(cfg, remote, env, st);
      }
    }
  }

  /** The endpoints after some of the listed mirrors were repaired. */
  function RepairSome(cfg: Config, remote: Remote, env: Env, st: State, addresses: seq<Address>,
                      keys: set<Key>): map<Key, Endpoints> {
    map k | k in st.endpoints :: if k in keys then RepairOne(cfg, remote, env, st, addresses, k) else st.endpoints[k]
  }

  lemma RepairedAll(cfg: Config, remote: Remote, env: Env, st: State, addresses: seq<Address>)
    ensures RepairSome(cfg, remote, env, st, addresses, LinkServices(cfg, st))
              == RepairAll(cfg, remote, env, st, addresses).endpoints
  {
    hide Canonical, EndpointPorts, OriginalKey;
    forall k | k in st.endpoints && k !in LinkServices(cfg, st)
      ensures RepairOne(cfg, remote, env, st, addresses, k) == st.endpoints[k]
    {
    }
  }

  /** Repairing one mirror reads no other mirror's endpoints. */
  lemma RepairReadsItsOwn(cfg: Config, remote: Remote, env: Env, a: State, b: State, addresses: seq<Address>, k: Key)
    requires k in a.endpoints && k in b.endpoints && b == a.(endpoints := b.endpoints)
    requires a.endpoints[k] == b.endpoints[k]
    ensures RepairOne(cfg, remote, env, a, addresses, k) == RepairOne(cfg, remote, env, b, addresses, k)
  {
    hide Canonical, RepairReaches, EndpointPorts, RepairedAsEmpty;
    if k in a.services && RepairReaches(cfg, env, k, a.services[k]) {
      assert EndpointPorts(cfg.link, a.services[k].ports).Some? by { ReachedHasPorts(cfg, env, k, a.services[k]); }
    }
  }

  lemma DecisionKeepsEvent(cfg: Config, env: Env, st: State, ev: Event)
    requires ev.OnAdd? || ev.OnUpdate?
    ensures CreateOrUpdate(cfg, env, st, ev).event == ev
  {
    hide MirrorDecision, FederatedDecision;
  }

  lemma DeletionIsDone(cfg: Config, st: State, ev: Event)
    requires ev.OnDelete?
    ensures HandleDelete(cfg, st, ev).event == ev && HandleDelete(cfg, st, ev).outcome == Done
  {
  }

  lemma NamespaceKeepsEvent(remote: Remote, env: Env, st: State, ns: string)
    ensures HandleNamespaceAdded(remote, env, st, ns).event == NamespaceAdded(ns)
  {
  }

  lemma {:induction false} RunExtends(cfg: Config, sys: System, trace: seq<Choice>, choice: Choice)
    requires Follows(cfg, sys, trace) && choice.index < |Run(cfg, sys, trace).queue| && ValidEnv(choice.env)
    ensures Follows(cfg, sys, trace + [choice])
    ensures Run(cfg, sys, trace + [choice]) == Step(cfg, Run(cfg, sys, trace), choice.index, choice.env)
    decreases |trace|
  {
    hide Step, ValidEnv;
    if trace == [] {
      assert (trace + [choice])[1..] == [];
    } else {
      RunExtends(cfg, Step(cfg, sys, trace[0].index, trace[0].env), trace[1..], choice);
      assert (trace + [choice])[1..] == trace[1..] + [choice];
    }
  }

  class RemoteClusterServiceWatcher {
    const cfg: Config
    var remote: Remote
    var services: map<Key, Service>
    var endpoints: map<Key, Endpoints>
    var namespaces: set<string>
    var mirrorStatus: seq<Status>
    var federatedStatus: seq<Status>
    var gatewayAlive: bool
    var now: nat
    var queue: seq<Item>
    var nextId: nat

    function View(): State
      reads this
    {
      State(services, endpoints, namespaces, mirrorStatus, federatedStatus, gatewayAlive, now)
    }

    function Sys(): System
      reads this
    {
      System(remote, View(), queue, nextId)
    }

    /** A new watcher takes the gateway to be alive. */
    constructor (cfg: Config, remote: Remote, st: State)
      ensures this.cfg == cfg
      ensures Sys() == System(remote, st.(gatewayAlive := true), [], 0)
    {
      this.cfg := cfg;
      this.remote := remote;
      services, endpoints, namespaces := st.services, st.endpoints, st.namespaces;
      mirrorStatus, federatedStatus := st.mirrorStatus, st.federatedStatus;
      gatewayAlive, now := true, st.now;
      queue, nextId := [], 0;
    }

    method Enqueue(ev: Event)
      modifies `queue, `nextId
      ensures queue == old(queue) + [Item(old(nextId), ev, 0)] && nextId == old(nextId) + 1
    {
      queue := queue + [Item(nextId, ev, 0)];
      nextId := nextId + 1;
    }

    /* ---------- API calls ---------- */

    method TryCreateService(env: Env, k: Key, svc: Service) returns (a: Answer)
      modifies `services
      ensures (View(), a) == CreateService(env, old(View()), k, svc)
    {
      if !env.ok(CreateServiceCall(k)) {
        return Failed;
      } else if k.ns !in namespaces {
        return NotFound;
      } else if k in services {
        return AlreadyExists;
      }
      services := services[k := Stamp(env, View(), k, svc)];
      return Ok;
    }

    method TryUpdateService(env: Env, k: Key, svc: Service) returns (a: Answer)
      modifies `services
      ensures (View(), a) == UpdateService(env, old(View()), k, svc)
    {
      if !env.ok(UpdateServiceCall(k)) {
        return Failed;
      } else if k !in services {
        return NotFound;
      } else if services[k].version != svc.version {
        return Conflict;
      }
      services := services[k := svc.(version := now)];
      return Ok;
    }

    method TryDeleteService(env: Env, k: Key) returns (a: Answer)
      modifies `services, `endpoints
      ensures (View(), a) == DeleteService(env, old(View()), k)
    {
      if !env.ok(DeleteServiceCall(k)) {
        return Failed;
      } else if k !in services {
        return NotFound;
      }
      services := services - {k};
      endpoints := endpoints - {k};
      return Ok;
    }

    method TryCreateEndpoints(env: Env, k: Key, ep: Endpoints) returns (a: Answer)
      modifies `endpoints
      ensures (View(), a) == CreateEndpoints(env, old(View()), k, ep)
    {
      if !env.ok(CreateEndpointsCall(k)) {
        return Failed;
      } else if k.ns !in namespaces {
        return NotFound;
      } else if k in endpoints {
        return AlreadyExists;
      }
      endpoints := endpoints[k := ep.(version := now)];
      return Ok;
    }

    method TryUpdateEndpoints(env: Env, k: Key, ep: Endpoints) returns (a: Answer)
      modifies `endpoints
      ensures (View(), a) == UpdateEndpoints(env, old(View()), k, ep)
    {
      if !env.ok(UpdateEndpointsCall(k)) {
        return Failed;
      } else if k !in endpoints {
        return NotFound;
      } else if endpoints[k].version != ep.version {
        return Conflict;
      }
      endpoints := endpoints[k := ep.(version := now)];
      return Ok;
    }

    method TryDeleteEndpoints(env: Env, k: Key) returns (a: Answer)
      modifies `endpoints
      ensures (View(), a) == DeleteEndpoints(env, old(View()), k)
    {
      if !env.ok(DeleteEndpointsCall(k)) {
        return Failed;
      } else if k !in endpoints {
        return NotFound;
      }
      endpoints := endpoints - {k};
      return Ok;
    }

    /** mirrorNamespaceIfNecessary, or the bare lookup when the watcher may not create namespaces. */
    method CheckNamespace(env: Env, ns: string) returns (a: NamespaceAnswer)
      modifies `namespaces
      ensures (View(), a) == EnsureNamespace(cfg, env, old(View()), ns)
    {
      if !env.ok(GetNamespace(ns)) {
        return Unknown;
      } else if ns in namespaces {
        return Present;
      } else if !cfg.namespaceCreation {
        return Absent;
      } else if !env.ok(CreateNamespace(ns)) {
        return Unknown;
      }
      namespaces := namespaces + {ns};
      return Present;
    }

    method UpdateLinkMirrorStatus(k: Key, c: Condition)
      modifies `mirrorStatus
      ensures View() == PutMirrorStatus(cfg, old(View()), k, c)
    {
      if cfg.link.cluster != "" {
        mirrorStatus := UpdateServiceStatus(mirrorStatus, k, c);
      }
    }

    method DeleteLinkMirrorStatus(k: Key)
      modifies `mirrorStatus
      ensures View() == DropMirrorStatus(cfg, old(View()), k)
    {
      if cfg.link.cluster != "" {
        mirrorStatus := DeleteServiceStatus(mirrorStatus, k);
      }
    }

    method UpdateLinkFederatedStatus(k: Key, c: Condition)
      modifies `federatedStatus
      ensures View() == PutFederatedStatus(cfg, old(View()), k, c)
    {
      if cfg.link.cluster != "" {
        federatedStatus := UpdateServiceStatus(federatedStatus, k, c);
      }
    }

    method DeleteLinkFederatedStatus(k: Key)
      modifies `federatedStatus
      ensures View() == DropFederatedStatus(cfg, old(View()), k)
    {
      if cfg.link.cluster != "" {
        federatedStatus := DeleteServiceStatus(federatedStatus, k);
      }
    }

    /* ---------- endpoints of mirrors ---------- */

    method CreateMirrorEndpoints(env: Env, k: Key, ep: Endpoints) returns (a: Answer)
      modifies `endpoints
      ensures (View(), a) == CreateEndpoints(env, old(View()), k, ByLiveness(old(View()), ep))
    {
      var subsets := UpdateReadiness(gatewayAlive, ep.subsets);
      a := TryCreateEndpoints(env, k, ep.(subsets := subsets));
    }

    method UpdateMirrorEndpoints(env: Env, k: Key, ep: Endpoints) returns (a: Answer)
      modifies `endpoints
      ensures (View(), a) == UpdateEndpoints(env, old(View()), k, ByLiveness(old(View()), ep))
    {
      var subsets := UpdateReadiness(gatewayAlive, ep.subsets);
      a := TryUpdateEndpoints(env, k, ep.(subsets := subsets));
    }

    method IsEmptyService(k: Key) returns (empty: bool)
      ensures empty <==> RemoteIsEmpty(remote, k)
    {
      if k !in remote.endpoints {
        return true;
      }
      empty := IsEmptyEndpoints(remote.endpoints[k]);
    }

    method MakeGatewayEndpoints(env: Env, k: Key, svc: Service) returns (outcome: Outcome)
      modifies `services, `endpoints
      ensures (View(), outcome) == CreateGatewayEndpoints(cfg, remote, env, old(View()), k, svc)
    {
      hide EndpointPorts, ResolveGateway, MirrorKey, EndpointLabels, GatewayAnnotations, FqName, RemoteIsEmpty;
      hide CreateEndpoints, DeleteService, ByLiveness;
      var addresses := ResolveGatewayAddress(cfg.link, env.lookup);
      if !env.ok(RemoteGetEndpoints(k)) || addresses.None? {
        return Retry;
      }
      var empty := IsEmptyService(k);
      var ports := ComputeEndpointPorts(cfg.link, svc.ports);
      if ports.None? {
        return Fail;
      }
      var mk := MirrorKey(cfg.link, k);
      var subsets := [];
      if !empty {
        subsets := [Subset(addresses.value, [], ports.value)];
      }
      var ep := Endpoints(EndpointLabels(cfg.link, svc.labels), GatewayAnnotations(cfg.link, FqName(cfg.link, k)),
                          subsets, 0);
      var created := CreateMirrorEndpoints(env, mk, ep);
      if created != Ok {
        var _ := TryDeleteService(env, mk);
        return Retry;
      }
      return Done;
    }

    /* ---------- deciding what a remote service needs ---------- */

    method DecideMirror(env: Env, k: Key, svc: Service) returns (outcome: Outcome, exported: bool)
      modifies `queue, `nextId
      ensures var (events, o) := MirrorDecision(cfg, env, old(View()), k, svc);
              && outcome == o && exported == (events != [] && events[0].Exported?)
              && queue == old(queue) + Fresh(events, old(nextId)) && nextId == old(nextId) + |events|
    {
      hide Desired, MirrorKey, FormatNat;
      exported := false;
      var mk := MirrorKey(cfg.link, k);
      if Desired(cfg.link, svc.labels) {
        if !env.ok(GetService(mk)) {
          return Retry, false;
        } else if mk !in services {
          Enqueue(Exported(k, svc));
          return Done, true;
        }
        var local := services[mk];
        if REMOTE_VERSION in local.annotations && local.annotations[REMOTE_VERSION] != FormatNat(svc.version) {
          if !env.ok(GetEndpoints(mk)) {
            return Retry, false;
          }
          Enqueue(Updated(k, local, if mk in endpoints then Some(endpoints[mk]) else None, svc));
        }
      } else if env.ok(GetService(mk)) && mk in services {
        var labels := services[mk].labels;
        if MIRRORED_RESOURCE in labels && Get(labels, CLUSTER_NAME) == cfg.link.cluster {
          Enqueue(Unexported(k));
        }
      }
      return Done, false;
    }

    method DecideFederated(env: Env, k: Key, svc: Service) returns (outcome: Outcome)
      modifies `queue, `nextId, `federatedStatus
      ensures var (st, events, o) := FederatedDecision(cfg, env, old(View()), k, svc);
              && View() == st && outcome == o
              && queue == old(queue) + Fresh(events, old(nextId)) && nextId == old(nextId) + |events|
    {
      hide IsFederatedMember, FederatedKey, PutFederatedStatus;
      var fk := FederatedKey(k);
      if IsFederatedMember(cfg.link, svc.labels) {
        if !env.ok(GetService(fk)) {
          UpdateLinkFederatedStatus(k, Failure(REASON_ERROR));
          return Retry;
        } else if fk !in services {
          Enqueue(CreateFederated(k, svc));
          return Done;
        }
        Enqueue(JoinFederated(k, services[fk], svc));
      } else if env.ok(GetService(fk)) && fk in services && MIRRORED_RESOURCE in services[fk].labels {
        Enqueue(LeaveFederated(k));
      }
      return Done;
    }

    method CreateOrUpdateService(env: Env, ev: Event) returns (outcome: Outcome)
      requires ev.OnAdd? || ev.OnUpdate?
      modifies `queue, `nextId, `federatedStatus
      ensures var out := CreateOrUpdate(cfg, env, old(View()), ev);
              && View() == out.st && outcome == out.outcome
              && queue == old(queue) + Fresh(out.spawned, old(nextId)) && nextId == old(nextId) + |out.spawned|
    {
      hide MirrorDecision, FederatedDecision, Fresh;
      var exported;
      outcome, exported := DecideMirror(env, ev.key, ev.svc);
      if outcome != Done || exported {
        return;
      }
      ghost var first := MirrorDecision(cfg, env, old(View()), ev.key, ev.svc).0;
      ghost var second := FederatedDecision(cfg, env, old(View()), ev.key, ev.svc).1;
      FreshOfConcat(first, second, old(nextId));
      outcome := DecideFederated(env, ev.key, ev.svc);
    }

    method HandleOnDelete(ev: Event)
      requires ev.OnDelete?
      modifies `queue, `nextId
      ensures var out := HandleDelete(cfg, old(View()), ev);
              && View() == out.st
              && queue == old(queue) + Fresh(out.spawned, old(nextId)) && nextId == old(nextId) + |out.spawned|
    {
      hide Desired, IsFederatedMember;
      if Desired(cfg.link, ev.svc.labels) {
        Enqueue(Unexported(ev.key));
      }
      if IsFederatedMember(cfg.link, ev.svc.labels) {
        Enqueue(LeaveFederated(ev.key));
      }
    }

    method HandleLocalNamespaceAdded(env: Env, ns: string) returns (outcome: Outcome)
      requires ValidEnv(env)
      modifies `queue, `nextId
      ensures var out := HandleNamespaceAdded(remote, env, old(View()), ns);
              && View() == out.st && outcome == out.outcome
              && queue == old(queue) + Fresh(out.spawned, old(nextId)) && nextId == old(nextId) + |out.spawned|
    {
      if !env.ok(RemoteListServices(ns)) {
        return Retry;
      }
      var keys := env.list(RemoteIn(remote, ns));
      Listed(env, RemoteIn(remote, ns));
      for i := 0 to |keys|
        invariant queue == old(queue) + Fresh(OnAdds(remote, keys[..i]), old(nextId))
        invariant nextId == old(nextId) + |OnAdds(remote, keys[..i])|
      {
        assert keys[..i + 1][..i] == keys[..i];
        FreshOfAppend(OnAdds(remote, keys[..i]), OnAdd(keys[i], remote.services[keys[i]]), old(nextId));
        Enqueue(OnAdd(keys[i], remote.services[keys[i]]));
      }
      assert keys[..|keys|] == keys;
      return Done;
    }

    /* ---------- mirrors ---------- */

    method HandleRemoteServiceExported(env: Env, k: Key, svc: Service) returns (outcome: Outcome)
      modifies `services, `endpoints, `namespaces, `mirrorStatus
      ensures (View(), outcome) == HandleExported(cfg, remote, env, old(View()), k, svc)
    {
      hide PutMirrorStatus, EnsureNamespace, CreateService, CreateGatewayEndpoints, NewMirror, IsRemoteDiscovery;
      hide MirrorKey;
      if cfg.headlessEnabled && svc.clusterIP == CLUSTER_IP_NONE {
        UpdateLinkMirrorStatus(k, Failure(REASON_INVALID_SERVICE));
        return Done;
      }
      var ns := CheckNamespace(env, k.ns);
      if ns == Unknown {
        UpdateLinkMirrorStatus(k, Failure(REASON_ERROR));
        return Retry;
      } else if ns == Absent {
        UpdateLinkMirrorStatus(k, Failure(REASON_MISSING_NAMESPACE));
        return Done;
      }
      var mk := MirrorKey(cfg.link, k);
      var created := TryCreateService(env, mk, NewMirror(cfg, k, svc, ""));
      if created != Ok && created != AlreadyExists {
        UpdateLinkMirrorStatus(k, Failure(REASON_ERROR));
        return Retry;
      }
      if IsRemoteDiscovery(cfg.link, svc.labels) {
        UpdateLinkMirrorStatus(k, Mirrored(mk));
        return Done;
      }
      outcome := MakeGatewayEndpoints(env, k, svc);
      if outcome != Done {
        UpdateLinkMirrorStatus(k, Failure(REASON_ERROR));
        return;
      }
      UpdateLinkMirrorStatus(k, Mirrored(mk));
    }

    method UpdateMirrorMode(env: Env, ev: Event) returns (outcome: Outcome)
      requires ev.Updated?
      modifies `services, `endpoints, `mirrorStatus
      ensures (View(), outcome) == UpdateMode(cfg, remote, env, old(View()), ev)
    {
      hide PutMirrorStatus, DeleteEndpoints, UpdateEndpoints, CreateGatewayEndpoints, IsRemoteDiscovery, MirrorKey;
      hide ResolveGateway, EndpointPorts, ByLiveness;
      var k, mk := ev.key, MirrorKey(cfg.link, ev.key);
      if IsRemoteDiscovery(cfg.link, ev.svc.labels) {
        if ev.localEndpoints.Some? {
          var deleted := TryDeleteEndpoints(env, mk);
          if deleted != Ok {
            UpdateLinkMirrorStatus(k, Failure(REASON_ERROR));
            return Retry;
          }
        }
        return Done;
      } else if ev.localEndpoints.None? {
        outcome := MakeGatewayEndpoints(env, k, ev.svc);
        if outcome != Done {
          UpdateLinkMirrorStatus(k, Failure(REASON_ERROR));
        }
        return;
      }
      var addresses := ResolveGatewayAddress(cfg.link, env.lookup);
      if addresses.None? {
        UpdateLinkMirrorStatus(k, Failure(REASON_ERROR));
        return Retry;
      }
      var ports := ComputeEndpointPorts(cfg.link, ev.svc.ports);
      if ports.None? {
        return Fail;
      }
      var ep := ev.localEndpoints.value;
      ep := ep.(subsets := [Subset(addresses.value, [], ports.value)],
                annotations := ep.annotations[GATEWAY_IDENTITY := cfg.link.gatewayIdentity]);
      var updated := UpdateMirrorEndpoints(env, mk, ep);
      if updated != Ok {
        UpdateLinkMirrorStatus(k, Failure(REASON_ERROR));
        return Retry;
      }
      return Done;
    }

    /** `event` is the event with the edits made to its copy of the local service. */
    method HandleRemoteExportedServiceUpdated(env: Env, ev: Event) returns (outcome: Outcome, event: Event)
      requires ev.Updated?
      modifies `services, `endpoints, `mirrorStatus
      ensures Out(View(), [], outcome, event) == HandleUpdated(cfg, remote, env, old(View()), ev)
    {
      hide PutMirrorStatus, UpdateMode, UpdateService, UpdatedLocal, MirrorKey;
      event := ev;
      outcome := UpdateMirrorMode(env, ev);
      if outcome != Done {
        return;
      }
      var mk := MirrorKey(cfg.link, ev.key);
      var local := UpdatedLocal(cfg, ev);
      event := Updated(ev.key, local, ev.localEndpoints, ev.svc);
      var updated := TryUpdateService(env, mk, local);
      if updated != Ok {
        UpdateLinkMirrorStatus(ev.key, Failure(REASON_ERROR));
        outcome := Retry;
      } else {
        UpdateLinkMirrorStatus(ev.key, Mirrored(mk));
      }
    }

    /** Deletes the services of a listing; a service that is gone already is no failure. */
    method DeleteServices(env: Env, ghost all: set<Key>, keys: seq<Key>) returns (failed: bool)
      requires Enumerates(keys, all)
      modifies `services, `endpoints
      ensures View() == Purge(env, old(View()), all)
      ensures failed <==> exists k :: k in all && !env.ok(DeleteServiceCall(k))
    {
      hide Purge, DeleteService, Seen;
      failed := false;
      assert Purge(env, View(), Seen(keys[..0])) == View() by { NothingPurged(env, View(), keys); }
      for i := 0 to |keys|
        invariant View() == Purge(env, old(View()), Seen(keys[..i]))
        invariant failed <==> exists j :: 0 <= j < i && !env.ok(DeleteServiceCall(keys[j]))
      {
        SeenNext(keys, all, i);
        PurgeOneMore(env, old(View()), Seen(keys[..i]), keys[i]);
        var answer := TryDeleteService(env, keys[i]);
        assert answer == Failed <==> !env.ok(DeleteServiceCall(keys[i])) by {
          DeleteFails(env, Purge(env, old(View()), Seen(keys[..i])), keys[i]);
        }
        if answer == Failed {
          failed := true;
        }
      }
      SeenAll(keys, all);
    }

    method HandleRemoteServiceUnexported(env: Env, k: Key) returns (outcome: Outcome)
      requires ValidEnv(env)
      modifies `services, `endpoints, `mirrorStatus
      ensures (View(), outcome) == HandleUnexported(cfg, env, old(View()), k)
    {
      hide DropMirrorStatus, Purge, DeleteService, EndpointMirrorsOf, MirrorKey;
      DeleteLinkMirrorStatus(k);
      var mk := MirrorKey(cfg.link, k);
      if !env.ok(GetService(mk)) {
        return Crash;
      } else if mk !in services {
        return Done;
      }
      var failed := false;
      var headless := services[mk].clusterIP == CLUSTER_IP_NONE;
      if headless {
        if !env.ok(ListServices) {
          failed := true;
        } else {
          var auxiliary := EndpointMirrorsOf(View(), mk.name);
          Listed(env, auxiliary);
          failed := DeleteServices(env, auxiliary, env.list(auxiliary));
        }
      }
      if !(headless && env.ok(ListServices)) {
        PurgeNone(env, View());
      }
      var deleted := TryDeleteService(env, mk);
      return if failed || deleted == Failed then Retry else Done;
    }

    /* ---------- federated services ---------- */

    method HandleCreateFederatedService(env: Env, k: Key, svc: Service) returns (outcome: Outcome)
      modifies `services, `namespaces, `federatedStatus
      ensures (View(), outcome) == HandleCreateFederated(cfg, env, old(View()), k, svc)
    {
      hide PutFederatedStatus, EnsureNamespace, CreateService, CommonLabels, CreatedAnnotations, RemapPorts;
      hide FederatedKey;
      if svc.clusterIP == CLUSTER_IP_NONE {
        UpdateLinkFederatedStatus(k, Failure(REASON_INVALID_SERVICE));
        return Fail;
      }
      var ns := CheckNamespace(env, k.ns);
      if ns == Unknown {
        UpdateLinkFederatedStatus(k, Failure(REASON_ERROR));
        return Retry;
      } else if ns == Absent {
        UpdateLinkFederatedStatus(k, Failure(REASON_MISSING_NAMESPACE));
        return Done;
      }
      var labels := ComputeCommonLabels(svc.labels);
      var ports := ComputeRemappedPorts(svc.ports);
      var federated := Service(labels, CreatedAnnotations(cfg.link.cluster, k.name, svc.annotations), ports, "", 0);
      var fk := FederatedKey(k);
      var created := TryCreateService(env, fk, federated);
      if created != Ok && created != AlreadyExists {
        UpdateLinkFederatedStatus(k, Failure(REASON_ERROR));
        return Retry;
      }
      UpdateLinkFederatedStatus(k, Mirrored(fk));
      return Done;
    }

    method HandleFederatedServiceJoin(env: Env, ev: Event) returns (outcome: Outcome, event: Event)
      requires ev.JoinFederated?
      modifies `services, `federatedStatus
      ensures Out(View(), [], outcome, event) == HandleJoin(cfg, env, old(View()), ev)
    {
      hide PutFederatedStatus, UpdateService, FederatedKey, Split, Target;
      event := ev;
      var k, cluster := ev.key, cfg.link.cluster;
      if ev.svc.clusterIP == CLUSTER_IP_NONE {
        UpdateLinkFederatedStatus(k, Failure(REASON_INVALID_SERVICE));
        return Fail, ev;
      }
      var annotations := ev.local.annotations;
      if cluster == "" {
        if annotations == map[] {
          return Crash, ev;
        }
        annotations := annotations[LOCAL_DISCOVERY := k.name];
      } else {
        var target := Target(k.name, cluster);
        var listed := RemoteDiscoveryContains(Get(annotations, REMOTE_DISCOVERY), target);
        if listed {
          return Done, ev;
        }
        if annotations == map[] {
          return Crash, ev;
        }
        var list := Get(annotations, REMOTE_DISCOVERY);
        annotations := annotations[REMOTE_DISCOVERY := if list == "" then target else list + "," + target];
      }
      var fk := FederatedKey(k);
      event := JoinFederated(k, ev.local.(annotations := annotations), ev.svc);
      var updated := TryUpdateService(env, fk, event.local);
      if updated != Ok {
        UpdateLinkFederatedStatus(k, Failure(REASON_ERROR));
        outcome := Retry;
      } else {
        UpdateLinkFederatedStatus(k, Mirrored(fk));
        outcome := Done;
      }
    }

    method HandleFederatedServiceLeave(env: Env, k: Key) returns (outcome: Outcome)
      modifies `services, `endpoints, `federatedStatus
      ensures (View(), outcome) == HandleLeave(cfg, env, old(View()), k)
    {
      hide DropFederatedStatus, UpdateService, DeleteService, FederatedKey, Split, Target, Join, Without;
      DeleteLinkFederatedStatus(k);
      var fk := FederatedKey(k);
      if !env.ok(GetService(fk)) {
        return Retry;
      } else if fk !in services {
        return Done;
      }
      var annotations := services[fk].annotations;
      if cfg.link.cluster == "" {
        annotations := annotations - {LOCAL_DISCOVERY};
      } else {
        var target := Target(k.name, cfg.link.cluster);
        var listed := RemoteDiscoveryContains(Get(annotations, REMOTE_DISCOVERY), target);
        if !listed {
          return Done;
        }
        var list := RemoveMember(Get(annotations, REMOTE_DISCOVERY), target);
        annotations := annotations[REMOTE_DISCOVERY := list];
      }
      if Get(annotations, REMOTE_DISCOVERY) == "" && Get(annotations, LOCAL_DISCOVERY) == "" {
        var deleted := TryDeleteService(env, fk);
        if deleted == Failed {
          return Retry;
        }
        DeleteLinkFederatedStatus(k);
        return Done;
      }
      var updated := TryUpdateService(env, fk, services[fk].(annotations := annotations));
      return if updated == Ok then Done else Retry;
    }

    /* ---------- garbage collection and clean-up ---------- */

    method CleanupOrphanedServices(env: Env) returns (outcome: Outcome)
      requires ValidEnv(env)
      modifies `services, `endpoints
      ensures (View(), outcome) == HandleGc(cfg, remote, env, old(View()))
    {
      hide Purge, DeleteService, Seen, OriginOf, OfLink;
      if !env.ok(ListServices) {
        return Retry;
      }
      var listed := services;
      ghost var st, all := View(), LinkServices(cfg, View());
      ghost var orphans := Orphans(cfg, remote, env, st);
      var keys := env.list(LinkServices(cfg, View()));
      Listed(env, all);
      var failed := false;
      assert Purge(env, st, orphans * Seen(keys[..0])) == st by {
        NothingPurged(env, st, keys);
        assert orphans * Seen(keys[..0]) == Seen(keys[..0]);
      }
      for i := 0 to |keys|
        invariant View() == Purge(env, st, orphans * Seen(keys[..i]))
        invariant failed <==> exists j :: 0 <= j < i && CollectionFails(cfg, remote, env, st, keys[j])
      {
        var k := keys[i];
        SeenNext(keys, all, i);
        var origin := OriginOf(cfg, k, listed[k]);
        if !env.ok(RemoteGetService(origin)) {
          failed := true;
        } else if origin !in remote.services {
          assert k in orphans;
          PurgeOneMore(env, st, orphans * Seen(keys[..i]), k);
          assert k in services by { PurgeKeepsOthers(env, st, orphans * Seen(keys[..i]), k); }
          var answer := TryDeleteService(env, k);
          assert answer == Ok <==> env.ok(DeleteServiceCall(k)) by {
            DeleteFails(env, Purge(env, st, orphans * Seen(keys[..i])), k);
          }
          if answer != Ok {
            failed := true;
          }
        }
        assert orphans * Seen(keys[..i + 1]) ==
               if k in orphans then orphans * Seen(keys[..i]) + {k} else orphans * Seen(keys[..i]);
      }
      SeenAll(keys, all);
      assert orphans * all == orphans;
      CollectionFailure(cfg, remote, env, st);
      assert failed <==> exists k :: k in all && CollectionFails(cfg, remote, env, st, k);
      return if failed then Retry else Done;
    }

    method CleanupMirroredResources(env: Env) returns (outcome: Outcome)
      requires ValidEnv(env)
      modifies `services, `endpoints
      ensures (View(), outcome) == HandleCleanup(cfg, env, old(View()))
    {
      hide Purge, PurgeEndpoints, DeleteEndpoints, Seen, OfLink;
      if !env.ok(ListServices) {
        return Retry;
      }
      var mine := LinkServices(cfg, View());
      Listed(env, mine);
      var failed := DeleteServices(env, mine, env.list(mine));
      if !env.ok(ListEndpoints) {
        return Retry;
      }
      ghost var st := View();
      var theirs := LinkEndpoints(cfg, View());
      var keys := env.list(theirs);
      Listed(env, theirs);
      assert PurgeEndpoints(env, st, Seen(keys[..0])) == st by { NoEndpointsPurged(env, st, keys); }
      for i := 0 to |keys|
        invariant View() == PurgeEndpoints(env, st, Seen(keys[..i]))
        invariant failed <==> (exists k :: k in mine && !env.ok(DeleteServiceCall(k))) ||
                              (exists j :: 0 <= j < i && !env.ok(DeleteEndpointsCall(keys[j])))
      {
        SeenNext(keys, theirs, i);
        PurgeEndpointsOneMore(env, st, Seen(keys[..i]), keys[i]);
        var answer := TryDeleteEndpoints(env, keys[i]);
        assert answer == Failed <==> !env.ok(DeleteEndpointsCall(keys[i])) by {
          DeleteEndpointsFails(env, PurgeEndpoints(env, st, Seen(keys[..i])), keys[i]);
        }
        if answer == Failed {
          failed := true;
        }
      }
      SeenAll(keys, theirs);
      return if failed then Retry else Done;
    }

    /* ---------- repair ---------- */

    method CreateOrUpdateGatewayEndpoints(env: Env, addresses: seq<Address>)
      modifies `endpoints
      ensures View() == RepairProbe(cfg, env, old(View()), addresses)
    {
      hide ParseInt, ProbeKey;
      var port := ParseInt(cfg.link.probePort, HALF_32);
      if port.None? {
        return;
      }
      var k := ProbeKey(cfg);
      var ep := ProbeEndpoints(cfg, addresses, port.value);
      if !env.ok(GetEndpoints(k)) {
        return;
      } else if k !in endpoints {
        var _ := TryCreateEndpoints(env, k, ep);
      } else if env.ok(UpdateEndpointsCall(k)) {
        endpoints := endpoints[k := ep.(version := now)];
      }
    }

    /** One round of the loop in repairEndpoints. */
    method RepairMirror(env: Env, addresses: seq<Address>, k: Key, svc: Service)
      requires k in services && services[k] == svc && OfLink(cfg.link, svc.labels)
      modifies `endpoints
      ensures k !in old(endpoints) ==> endpoints == old(endpoints)
      ensures k in old(endpoints) ==>
                endpoints == old(endpoints)[k := RepairOne(cfg, remote, env, old(View()), addresses, k)]
    {
      hide EndpointPorts, OriginalKey, RemoteIsEmpty, OfLink;
      assert k in endpoints ==> endpoints == endpoints[k := endpoints[k]];
      if svc.clusterIP == CLUSTER_IP_NONE || REMOTE_DISCOVERY in svc.labels || !env.ok(GetEndpoints(k))
         || k !in endpoints {
        return;
      }
      var ep := endpoints[k];
      var ports := ComputeEndpointPorts(cfg.link, svc.ports);
      if ports.None? {
        return;
      }
      var subsets := [Subset(addresses, [], ports.value)];
      if HEADLESS_NAME !in svc.labels {
        var target := OriginalKey(cfg.link, k);
        if !env.ok(RemoteGetEndpoints(target)) {
          return;
        }
        var empty := IsEmptyService(target);
        if empty {
          subsets := [];
          assert Readiness(gatewayAlive, subsets) == [];
        }
      }
      var _ := UpdateMirrorEndpoints(env, k,
        Endpoints(ep.labels, ep.annotations[GATEWAY_IDENTITY := cfg.link.gatewayIdentity], subsets, ep.version));
    }

    method RepairEndpointsOfMirrors(env: Env) returns (outcome: Outcome)
      requires ValidEnv(env)
      modifies `endpoints
      ensures (View(), outcome) == HandleRepair(cfg, remote, env, old(View()))
    {
      hide ResolveGateway, RepairProbe, RepairOne, OfLink, Seen;
      var addresses := ResolveGatewayAddress(cfg.link, env.lookup);
      if addresses.None? {
        return Retry;
      }
      CreateOrUpdateGatewayEndpoints(env, addresses.value);
      if !env.ok(ListServices) {
        return Retry;
      }
      ghost var st, all := View(), LinkServices(cfg, View());
      var keys := env.list(LinkServices(cfg, View()));
      Listed(env, all);
      assert endpoints == RepairSome(cfg, remote, env, st, addresses.value, Seen(keys[..0])) by { NothingSeen(keys); }
      for i := 0 to |keys|
        invariant endpoints == RepairSome(cfg, remote, env, st, addresses.value, Seen(keys[..i]))
        invariant View() == st.(endpoints := endpoints)
      {
        var k := keys[i];
        SeenNext(keys, all, i);
        ghost var before := View();
        RepairMirror(env, addresses.value, k, services[k]);
        if k in st.endpoints {
          RepairReadsItsOwn(cfg, remote, env, st, before, addresses.value, k);
        }
      }
      SeenAll(keys, all);
      RepairedAll(cfg, remote, env, st, addresses.value);
      return Done;
    }

    /* ---------- endpoints events ---------- */

    method HandleCreateOrUpdateEndpoints(env: Env, k: Key, exported: Endpoints) returns (outcome: Outcome)
      requires ValidEnv(env)
      modifies `services, `endpoints, `namespaces
      ensures (View(), outcome) == HandleEndpoints(cfg, remote, env, old(View()), k, exported)
    {
      hide HandleHeadless, MirrorKey, ResolveGateway, EndpointPorts, UpdateEndpoints, ByLiveness, HasReady;
      if IS_HEADLESS_SERVICE in exported.labels {
        if cfg.headlessEnabled {
          outcome := CreateOrUpdateHeadlessEndpoints(env, k, exported);
          return;
        }
        return Done;
      }
      var mk := MirrorKey(cfg.link, k);
      if !env.ok(GetEndpoints(mk)) || mk !in endpoints {
        return Retry;
      }
      var ep := endpoints[mk];
      var localEmpty := IsEmptyEndpoints(ep);
      var exportedEmpty := IsEmptyEndpoints(exported);
      if (localEmpty && exportedEmpty) || (!localEmpty && !exportedEmpty) {
        return Done;
      }
      if exportedEmpty {
        ep := ep.(subsets := []);
      } else {
        if !env.ok(RemoteGetService(k)) || k !in remote.services {
          return Retry;
        }
        var addresses := ResolveGatewayAddress(cfg.link, env.lookup);
        if addresses.None? {
          return Retry;
        }
        var ports := ComputeEndpointPorts(cfg.link, remote.services[k].ports);
        if ports.None? {
          return Fail;
        }
        ep := ep.(subsets := [Subset(addresses.value, [], ports.value)]);
      }
      var updated := UpdateMirrorEndpoints(env, mk, ep);
      return if updated == Ok then Done else Fail;
    }

    /* ---------- headless mirrors ---------- */

    method CreateEndpointMirrorService(env: Env, src: Source, host: string) returns (ip: string, outcome: Outcome)
      modifies `services, `endpoints
      ensures Created(View(), ip, outcome) == CreateEndpointMirror(cfg, env, old(View()), src, host)
    {
      hide ResolveGateway, EndpointPorts, NewEndpointMirror, NewEndpointMirrorEndpoints, HostKey;
      hide CreateService, CreateEndpoints, DeleteService, ByLiveness;
      var addresses := ResolveGatewayAddress(cfg.link, env.lookup);
      if addresses.None? {
        return "", Retry;
      }
      var ports := ComputeEndpointPorts(cfg.link, src.svc.ports);
      if ports.None? {
        return "", Fail;
      }
      var k := HostKey(cfg, src, host);
      var made := TryCreateService(env, k, NewEndpointMirror(cfg, src, host));
      if made != Ok && made != AlreadyExists {
        return "", Retry;
      }
      ip := if made == Ok then env.assignIP(k) else "";
      var created := CreateMirrorEndpoints(env, k,
                                           NewEndpointMirrorEndpoints(cfg, src, host, addresses.value, ports.value));
      if created != Ok {
        var _ := TryDeleteService(env, k);
        return ip, Retry;
      }
      return ip, Done;
    }

    /** The inner loop of the diff-sync: the addresses of one subset. */
    method SyncSubsetAddresses(env: Env, src: Source, addresses: seq<Address>, wanted: set<string>)
      returns (names: set<string>, out: seq<Address>, outcome: Outcome)
      modifies `services, `endpoints
      ensures Sync(View(), names, out, outcome)
                == SyncAddresses(cfg, env, src, addresses, Sync(old(View()), wanted, [], Done))
    {
      hide CreateEndpointMirror, HostKey;
      names, out, outcome := wanted, [], Done;
      ghost var goal := SyncAddresses(cfg, env, src, addresses, Sync(View(), wanted, [], Done));
      for i := 0 to |addresses|
        invariant outcome == Done
        invariant goal == SyncAddresses(cfg, env, src, addresses[i..], Sync(View(), names, out, Done))
      {
        assert addresses[i..][0] == addresses[i] && addresses[i..][1..] == addresses[i + 1..];
        var a := addresses[i];
        if a.hostname == "" {
          continue;
        }
        var k := HostKey(cfg, src, a.hostname);
        if !env.ok(GetService(k)) {
          return names, out, Fail;
        }
        var ip;
        if k in services {
          ip := services[k].clusterIP;
        } else {
          ip, outcome := CreateEndpointMirrorService(env, src, a.hostname);
          if outcome != Done {
            return;
          }
        }
        names := names + {k.name};
        out := out + [Address(ip, a.hostname, None)];
      }
    }

    /** The outer loop of the diff-sync. */
    method SyncExportedSubsets(env: Env, src: Source, subsets: seq<Subset>)
      returns (names: set<string>, out: seq<Subset>, outcome: Outcome)
      modifies `services, `endpoints
      ensures Sync(View(), names, out, outcome) == SyncSubsets(cfg, env, src, subsets, Sync(old(View()), {}, [], Done))
    {
      hide SyncAddresses;
      names, out, outcome := {}, [], Done;
      ghost var goal := SyncSubsets(cfg, env, src, subsets, Sync(View(), {}, [], Done));
      for i := 0 to |subsets|
        invariant outcome == Done
        invariant goal == SyncSubsets(cfg, env, src, subsets[i..], Sync(View(), names, out, Done))
      {
        assert subsets[i..][0] == subsets[i] && subsets[i..][1..] == subsets[i + 1..];
        var addresses;
        names, addresses, outcome := SyncSubsetAddresses(env, src, subsets[i].addresses, names);
        if outcome != Done {
          return;
        }
        if addresses == [] {
          continue;
        }
        out := out + [Subset(addresses, [], subsets[i].ports)];
      }
    }

    /** Brings an existing headless mirror in line with the exported endpoints. */
    method SyncHeadlessMirror(env: Env, src: Source, exported: Endpoints, local: Endpoints) returns (outcome: Outcome)
      requires ValidEnv(env)
      modifies `services, `endpoints
      ensures (View(), outcome) == SyncHeadless(cfg, env, old(View()), src, exported, local)
    {
      hide SyncSubsets, Purge, UpdateEndpoints, ByLiveness, MirrorKey, Unwanted;
      var names, subsets;
      names, subsets, outcome := SyncExportedSubsets(env, src, exported.subsets);
      if outcome != Done {
        return;
      }
      if !env.ok(ListServices) {
        return Fail;
      }
      var mk := MirrorKey(cfg.link, src.key);
      var unwanted := Unwanted(View(), mk.name, names);
      Listed(env, unwanted);
      var failed := DeleteServices(env, unwanted, env.list(unwanted));
      if failed {
        return Retry;
      }
      var updated := UpdateMirrorEndpoints(env, mk, local.(subsets := subsets));
      return if updated == Ok then Done else Retry;
    }

    /** The inner loop of creating a new headless mirror's endpoints: failures are logged and skipped. */
    method MakeSubsetAddresses(env: Env, src: Source, addresses: seq<Address>)
      returns (out: seq<Address>, outcome: Outcome)
      modifies `services, `endpoints
      ensures Sync(View(), {}, out, outcome) == MakeAddresses(cfg, env, src, addresses, Sync(old(View()), {}, [], Done))
    {
      hide CreateEndpointMirror;
      out, outcome := [], Done;
      ghost var goal := MakeAddresses(cfg, env, src, addresses, Sync(View(), {}, [], Done));
      for i := 0 to |addresses|
        invariant outcome == Done
        invariant goal == MakeAddresses(cfg, env, src, addresses[i..], Sync(View(), {}, out, Done))
      {
        assert addresses[i..][0] == addresses[i] && addresses[i..][1..] == addresses[i + 1..];
        var a := addresses[i];
        if a.hostname == "" {
          continue;
        }
        var ip, made := CreateEndpointMirrorService(env, src, a.hostname);
        if made != Done {
          continue;
        }
        if a.targetRef.None? {
          return out, Crash;
        }
        out := out + [Address(ip, a.targetRef.value, None)];
      }
    }

    method MakeExportedSubsets(env: Env, src: Source, subsets: seq<Subset>) returns (out: seq<Subset>, outcome: Outcome)
      modifies `services, `endpoints
      ensures Sync(View(), {}, out, outcome) == MakeSubsets(cfg, env, src, subsets, Sync(old(View()), {}, [], Done))
    {
      hide MakeAddresses;
      out, outcome := [], Done;
      ghost var goal := MakeSubsets(cfg, env, src, subsets, Sync(View(), {}, [], Done));
      for i := 0 to |subsets|
        invariant outcome == Done
        invariant goal == MakeSubsets(cfg, env, src, subsets[i..], Sync(View(), {}, out, Done))
      {
        assert subsets[i..][0] == subsets[i] && subsets[i..][1..] == subsets[i + 1..];
        var addresses;
        addresses, outcome := MakeSubsetAddresses(env, src, subsets[i].addresses);
        if outcome != Done {
          return;
        }
        if addresses == [] {
          continue;
        }
        out := out + [Subset(addresses, [], subsets[i].ports)];
      }
    }

    method CreateHeadlessMirrorEndpoints(env: Env, src: Source, exported: Endpoints) returns (outcome: Outcome)
      modifies `services, `endpoints
      ensures (View(), outcome) == CreateHeadlessEndpoints(cfg, env, old(View()), src, exported)
    {
      hide MakeSubsets, MirrorKey, EndpointLabels, GatewayAnnotations, FqName, CreateEndpoints, DeleteService;
      var subsets;
      subsets, outcome := MakeExportedSubsets(env, src, exported.subsets);
      if outcome != Done {
        return;
      }
      var mk := MirrorKey(cfg.link, src.key);
      var ep := Endpoints(EndpointLabels(cfg.link, src.svc.labels),
                          GatewayAnnotations(cfg.link, FqName(cfg.link, src.key)), subsets, 0);
      var created := TryCreateEndpoints(env, mk, ep);
      if created != Ok {
        var _ := TryDeleteService(env, mk);
        return Retry;
      }
      return Done;
    }

    method CreateRemoteHeadlessService(env: Env, src: Source, exported: Endpoints)
      returns (ip: string, outcome: Outcome)
      modifies `services, `namespaces
      ensures Created(View(), ip, outcome) == CreateHeadlessService(cfg, env, old(View()), src, exported)
    {
      hide EnsureNamespace, MirrorKey, NewMirror, ExportsAsHeadless, CreateService, Stamp;
      if exported.subsets == [] {
        return "", Done;
      }
      var ns := CheckNamespace(env, src.key.ns);
      if ns == Unknown {
        return "", Retry;
      } else if ns == Absent {
        return "", Done;
      }
      var mk := MirrorKey(cfg.link, src.key);
      var clusterIP := "";
      var headless := ShouldExportAsHeadlessService(exported);
      if headless {
        clusterIP := CLUSTER_IP_NONE;
      }
      var svc := NewMirror(cfg, src.key, src.svc, clusterIP);
      ip := Stamp(env, View(), mk, svc).clusterIP;
      var created := TryCreateService(env, mk, svc);
      if created == Ok {
        return ip, Done;
      }
      return "", if created == AlreadyExists then Fail else Retry;
    }

    method CreateOrUpdateHeadlessEndpoints(env: Env, k: Key, exported: Endpoints) returns (outcome: Outcome)
      requires ValidEnv(env)
      modifies `services, `endpoints, `namespaces
      ensures (View(), outcome) == HandleHeadless(cfg, remote, env, old(View()), k, exported)
    {
      hide MirrorKey, CreateHeadlessService, CreateGatewayEndpoints, CreateHeadlessEndpoints, SyncHeadless;
      if !env.ok(RemoteGetService(k)) || k !in remote.services {
        return Fail;
      }
      var svc := remote.services[k];
      if svc.ports == [] {
        return Done;
      }
      var src := Source(k, svc, exported.version);
      var mk := MirrorKey(cfg.link, k);
      if !env.ok(GetService(mk)) {
        return Fail;
      }
      var ip;
      if mk in services {
        ip := services[mk].clusterIP;
      } else {
        ip, outcome := CreateRemoteHeadlessService(env, src, exported);
        if outcome != Done {
          return;
        }
      }
      if !env.ok(GetEndpoints(mk)) {
        return Fail;
      }
      if mk !in endpoints {
        if ip != CLUSTER_IP_NONE {
          outcome := MakeGatewayEndpoints(env, k, svc);
        } else {
          outcome := CreateHeadlessMirrorEndpoints(env, src, exported);
        }
        return;
      }
      if ip != CLUSTER_IP_NONE {
        return Done;
      }
      outcome := SyncHeadlessMirror(env, src, exported, endpoints[mk]);
    }

    /* ---------- the processing loop ---------- */

    /** Dispatches one event; `event` is what a retry would see. */
    method ProcessNextEvent(env: Env, ev: Event) returns (outcome: Outcome, event: Event)
      requires ValidEnv(env)
      modifies `services, `endpoints, `namespaces, `mirrorStatus, `federatedStatus, `queue, `nextId
      ensures var out := Handle(cfg, remote, env, old(View()), ev);
              && View() == out.st && outcome == out.outcome && event == out.event
              && queue == old(queue) + Fresh(out.spawned, old(nextId)) && nextId == old(nextId) + |out.spawned|
    {
      hide CreateOrUpdate, HandleDelete, HandleExported, HandleUpdated, HandleUnexported, HandleNamespaceAdded;
      hide HandleEndpoints;
      hide HandleCreateFederated, HandleJoin, HandleLeave, HandleCleanup, HandleGc, HandleRepair;
      event := ev;
      match ev
      case OnAdd(_, _) =>
        outcome := CreateOrUpdateService(env, ev);
        DecisionKeepsEvent(cfg, env, old(View()), ev);
      case OnUpdate(_, _) =>
        outcome := CreateOrUpdateService(env, ev);
        DecisionKeepsEvent(cfg, env, old(View()), ev);
      case OnDelete(_, _) =>
        HandleOnDelete(ev);
        outcome := Done;
        DeletionIsDone(cfg, old(View()), ev);
      case OnAddEndpoints(k, ep) => outcome := HandleCreateOrUpdateEndpoints(env, k, ep);
      case OnUpdateEndpoints(k, ep) => outcome := HandleCreateOrUpdateEndpoints(env, k, ep);
      case Exported(k, svc) => outcome := HandleRemoteServiceExported(env, k, svc);
      case Updated(_, _, _, _) => outcome, event := HandleRemoteExportedServiceUpdated(env, ev);
      case Unexported(k) => outcome := HandleRemoteServiceUnexported(env, k);
      case CreateFederated(k, svc) => outcome := HandleCreateFederatedService(env, k, svc);
      case JoinFederated(_, _, _) => outcome, event := HandleFederatedServiceJoin(env, ev);
      case LeaveFederated(k) => outcome := HandleFederatedServiceLeave(env, k);
      case ClusterUnregistered => outcome := CleanupMirroredResources(env);
      case GcTriggered => outcome := CleanupOrphanedServices(env);
      case RepairEndpoints => outcome := RepairEndpointsOfMirrors(env);
      case NamespaceAdded(ns) =>
        outcome := HandleLocalNamespaceAdded(env, ns);
        NamespaceKeepsEvent(remote, env, old(View()), ns);
    }

    /** Takes one event off the queue, handles it, and puts it back if it should be retried. */
    method ProcessOne(i: nat, env: Env)
      requires i < |queue| && ValidEnv(env)
      modifies `services, `endpoints, `namespaces, `mirrorStatus, `federatedStatus, `queue, `nextId, `now
      ensures Sys() == Step(cfg, old(Sys()), i, env)
    {
      hide Handle, Fresh;
      var item := queue[i];
      queue := queue[..i] + queue[i + 1..];
      var outcome, event := ProcessNextEvent(env, item.event);
      now := now + 1;
      if outcome == Retry && item.requeues < cfg.requeueLimit {
        queue := queue + [Item(item.id, event, item.requeues + 1)];
      }
    }

    /** The processing loop without new input, under any schedule and any failures: it ends, with an empty
        queue, after at most as many rounds as the queue's weight. Every service of the link still stands for a
        remote service; if the last repair could do its work, nothing is ready behind a dead gateway; and if
        nothing failed, the mirrors are exactly the image of the remote services. */
    method ProcessEvents(schedule: nat -> Choice) returns (rounds: nat, ghost trace: seq<Choice>)
      requires forall n :: ValidEnv(schedule(n).env)
      modifies `services, `endpoints, `namespaces, `mirrorStatus, `federatedStatus, `queue, `nextId, `now
      ensures queue == []
      ensures rounds == |trace| <= Potential(cfg, remote, old(queue))
      ensures Follows(cfg, old(Sys()), trace) && Sys() == Run(cfg, old(Sys()), trace)
      ensures Liveness.Consistent(cfg, old(Sys())) ==> Liveness.Consistent(cfg, Sys())
      ensures Liveness.Consistent(cfg, old(Sys())) && Liveness.Shielded(cfg, old(Sys()))
              && Liveness.AdmissibleRun(cfg, old(Sys()), Moves(trace))
              ==> gatewayAlive || Effects.Protected(cfg, Sys().st)
      ensures Refinement.Tracking(cfg, old(Sys())) && Refinement.AllWelcome(cfg, old(Sys()), trace)
              && !FederatedLike(cfg.link.cluster)
              ==> Refinement.MirrorsExactly(cfg, Sys())
    {
      hide Step, Potential, FederatedLike, Liveness.Consistent, Liveness.Shielded, Liveness.AdmissibleRun;
      hide Effects.Protected;
      hide Refinement.Tracking, Refinement.AllWelcome, Refinement.MirrorsExactly;
      rounds, trace := 0, [];
      while queue != []
        invariant rounds == |trace|
        invariant rounds + Potential(cfg, remote, queue) <= Potential(cfg, remote, old(queue))
        invariant Follows(cfg, old(Sys()), trace) && Sys() == Run(cfg, old(Sys()), trace)
        decreases Potential(cfg, remote, queue)
      {
        var choice := schedule(rounds);
        var i := choice.index % |queue|;
        StepUsesPotential(cfg, Sys(), i, choice.env);
        RunExtends(cfg, old(Sys()), trace, Choice(i, choice.env));
        ghost var before := Sys();
        ProcessOne(i, choice.env);
        assert remote == before.remote;
        trace := trace + [Choice(i, choice.env)];
        rounds := rounds + 1;
      }
      ghost var start := old(Sys());
      if Liveness.Consistent(cfg, start) {
        RunIsConsistent(cfg, start, trace);
        if Liveness.Shielded(cfg, start) && Liveness.AdmissibleRun(cfg, start, Moves(trace)) {
          DrainedIsProtected(cfg, start, trace);
        }
      }
      if Refinement.Tracking(cfg, start) && Refinement.AllWelcome(cfg, start, trace)
         && !FederatedLike(cfg.link.cluster) {
        Refinement.DrainTracks(cfg, start, trace);
        Refinement.DrainedMirrors(cfg, Sys());
      }
    }
  }
}
