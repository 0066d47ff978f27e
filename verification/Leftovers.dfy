/** Which events leave endpoints under a mirror name without a service, whether the gateway is alive or dead. A link
    without discovery mode then needs nothing but repairs that succeed. */
module Leftovers {
  import opened Strings
  import opened Kubernetes
  import opened Mirror
  import opened StatusList
  import opened Federation
  import opened Api
  import opened HeadlessMirror
  import opened Handlers
  import opened Effects
  import opened Crashes
  import opened HeadlessOrphans
  import opened Machine
  import opened Liveness
  import opened Discovery

  type State = Api.State

  /** Endpoints under a mirror name have a service. */
  ghost predicate Backed(cfg: Config, st: State) {
    forall n :: n in st.endpoints && MirrorNamed(cfg, n) ==> n in st.services
  }

  /* ---------- the guard ---------- */

  /** Gateway endpoints for k can be computed and created. */
  predicate Creatable(cfg: Config, env: Env, st: State, k: Key) {
    var mk := MirrorKey(cfg.link, k);
    && env.ok(RemoteGetEndpoints(k))
    && ResolveGateway(cfg.link, env.lookup).Some? && ParseInt(cfg.link.gatewayPort, HALF_32).Some?
    && env.ok(CreateEndpointsCall(mk)) && k.ns in st.namespaces
  }

  /** An update to gateway mode, queued when the mirror had no endpoints, comes after the mirror has gone. */
  predicate ComesLate(cfg: Config, env: Env, st: State, ev: Event)
    requires ev.Updated?
  {
    && !IsRemoteDiscovery(cfg.link, ev.svc.labels) && ev.localEndpoints.None?
    && MirrorKey(cfg.link, ev.key) !in st.services && Creatable(cfg, env, st, ev.key)
  }

  /** Headless endpoints without subsets come before there is a mirror. */
  predicate ComesEarly(cfg: Config, remote: Remote, env: Env, st: State, k: Key, exported: Endpoints) {
    var mk := MirrorKey(cfg.link, k);
    && exported.subsets == [] && mk !in st.services
    && env.ok(RemoteGetService(k)) && k in remote.services && remote.services[k].ports != []
    && env.ok(GetService(mk)) && env.ok(GetEndpoints(mk)) && Creatable(cfg, env, st, k)
  }

  /** A repair creates the probe endpoints, and the link has no probe service. */
  predicate LacksProbe(cfg: Config, env: Env, st: State) {
    var n := ProbeKey(cfg);
    && n !in st.services
    && ResolveGateway(cfg.link, env.lookup).Some? && ParseInt(cfg.link.probePort, HALF_32).Some?
    && env.ok(GetEndpoints(n)) && env.ok(CreateEndpointsCall(n)) && n.ns in st.namespaces
  }

  predicate Strands(cfg: Config, remote: Remote, env: Env, st: State, ev: Event) {
    || (ev.Updated? && ComesLate(cfg, env, st, ev))
    || (HeadlessEvent(cfg, ev)
        && (ComesEarly(cfg, remote, env, st, ev.key, ev.ep) || LeavesOrphan(cfg, remote, env, st, ev.key, ev.ep)))
    || (ev.RepairEndpoints? && LacksProbe(cfg, env, st))
  }

  /* ---------- one call at a time ---------- */

  /** One effect of a handler. */
  ghost predicate Backs(cfg: Config, pre: State, post: State) {
    Backed(cfg, pre) ==> Backed(cfg, post)
  }

  /** No service goes away, and no endpoints come. */
  lemma NoEndpointsCome(cfg: Config, pre: State, post: State)
    requires pre.services.Keys <= post.services.Keys && post.endpoints.Keys <= pre.endpoints.Keys
    ensures Backs(cfg, pre, post)
  {
    hide MirrorNamed;
  }

  lemma CallsBack(cfg: Config, env: Env, st: State, k: Key, svc: Service, ep: Endpoints)
    ensures Backs(cfg, st, CreateService(env, st, k, svc).0) && Backs(cfg, st, UpdateService(env, st, k, svc).0)
    ensures Backs(cfg, st, DeleteService(env, st, k).0)
    ensures Backs(cfg, st, UpdateEndpoints(env, st, k, ep).0) && Backs(cfg, st, DeleteEndpoints(env, st, k).0)
    ensures k in st.services ==> Backs(cfg, st, CreateEndpoints(env, st, k, ep).0)
    ensures Backs(cfg, st, EnsureNamespace(cfg, env, st, k.ns).0)
  {
    hide MirrorNamed, Stamp;
  }

  lemma SweepsBack(cfg: Config, env: Env, st: State, keys: set<Key>)
    ensures Backs(cfg, st, Purge(env, st, keys)) && Backs(cfg, st, PurgeEndpoints(env, st, keys))
  {
    hide MirrorNamed;
  }

  lemma StatusBacks(cfg: Config, pre: State, st: State, k: Key, c: Condition)
    requires Backs(cfg, pre, st)
    ensures Backs(cfg, pre, PutMirrorStatus(cfg, st, k, c)) && Backs(cfg, pre, DropMirrorStatus(cfg, st, k))
    ensures Backs(cfg, pre, PutFederatedStatus(cfg, st, k, c)) && Backs(cfg, pre, DropFederatedStatus(cfg, st, k))
  {
    hide MirrorNamed, Update, Delete;
  }

  /** Endpoints that were created under a mirror name: backed exactly if a service is there. */
  lemma CreatedIsBacked(cfg: Config, env: Env, st: State, n: Key, ep: Endpoints)
    requires Backed(cfg, st) && MirrorNamed(cfg, n) && CreateEndpoints(env, st, n, ep).1 == Ok
    ensures Backed(cfg, CreateEndpoints(env, st, n, ep).0) <==> n in st.services
  {
    hide MirrorNamed;
    assert n in CreateEndpoints(env, st, n, ep).0.endpoints;
  }

  lemma UnbackedIsAbsent(cfg: Config, st: State, n: Key)
    requires Backed(cfg, st) && MirrorNamed(cfg, n) && n !in st.services
    ensures n !in st.endpoints
  {
    hide MirrorNamed;
  }

  /* ---------- gateway endpoints ---------- */

  lemma GatewayEndpointsBack(cfg: Config, remote: Remote, env: Env, st: State, k: Key, svc: Service)
    requires Backed(cfg, st)
    ensures Backed(cfg, CreateGatewayEndpoints(cfg, remote, env, st, k, svc).0) <==>
              !(MirrorKey(cfg.link, k) !in st.services && Creatable(cfg, env, st, k))
  {
    hide Backed, ResolveGateway, ParseInt, NewGatewayEndpoints, ByLiveness, MirrorKey, MirrorNamed, DeleteService;
    hide CreateEndpoints;
    var mk := MirrorKey(cfg.link, k);
    MirrorIsShaped(cfg, k, map[]);
    assert mk.ns == k.ns by { SameNamespace(cfg, k); }
    var addresses, ports := ResolveGateway(cfg.link, env.lookup), EndpointPorts(cfg.link, svc.ports);
    if env.ok(RemoteGetEndpoints(k)) && addresses.Some? && ports.Some? {
      var ep := ByLiveness(st, NewGatewayEndpoints(cfg, remote, k, svc, addresses.value, ports.value));
      if mk !in st.services { UnbackedIsAbsent(cfg, st, mk); }
      CreateEndpointsAnswer(env, st, mk, ep);
      if CreateEndpoints(env, st, mk, ep).1 == Ok {
        CreatedIsBacked(cfg, env, st, mk, ep);
      } else {
        CallsBack(cfg, env, st, mk, Service(map[], map[], [], "", 0), ep);
      }
    }
  }

  lemma CreateEndpointsAnswer(env: Env, st: State, n: Key, ep: Endpoints)
    ensures var (post, answer) := CreateEndpoints(env, st, n, ep);
            && (answer == Ok <==> env.ok(CreateEndpointsCall(n)) && n.ns in st.namespaces && n !in st.endpoints)
            && (answer != Ok ==> post == st)
            && post.services == st.services
  {
  }

  lemma ExportBacks(cfg: Config, remote: Remote, env: Env, st: State, k: Key, svc: Service)
    requires Backed(cfg, st)
    ensures Backed(cfg, HandleExported(cfg, remote, env, st, k, svc).0)
  {
    hide Backed, MirrorKey, NewMirror, IsRemoteDiscovery, CreateGatewayEndpoints, PutMirrorStatus, Headless;
    hide EnsureNamespace, CreateService, Mirrored, Failure, Creatable;
    var mk := MirrorKey(cfg.link, k);
    var svc' := NewMirror(cfg, k, svc, "");
    var st1 := EnsureNamespace(cfg, env, st, k.ns).0;
    assert k.ns == mk.ns by { SameNamespace(cfg, k); }
    CallsBack(cfg, env, st, mk, svc', Endpoints(map[], map[], [], 0));
    CallsBack(cfg, env, st1, mk, svc', Endpoints(map[], map[], [], 0));
    var (st2, created) := CreateService(env, st1, mk, svc');
    var st3 := CreateGatewayEndpoints(cfg, remote, env, st2, k, svc).0;
    GatewayEndpointsBack(cfg, remote, env, st2, k, svc);
    CreatedServiceIsThere(env, st1, mk, svc');
    forall c ensures Backed(cfg, PutMirrorStatus(cfg, st, k, c)) && Backed(cfg, PutMirrorStatus(cfg, st1, k, c))
                     && Backed(cfg, PutMirrorStatus(cfg, st2, k, c))
                     && (mk in st2.services ==> Backed(cfg, PutMirrorStatus(cfg, st3, k, c)))
    {
      StatusBacks(cfg, st, st, k, c);
      StatusBacks(cfg, st1, st1, k, c);
      StatusBacks(cfg, st2, st2, k, c);
      StatusBacks(cfg, st3, st3, k, c);
    }
  }

  lemma CreatedServiceIsThere(env: Env, st: State, n: Key, svc: Service)
    ensures var (post, created) := CreateService(env, st, n, svc);
            created == Ok || created == AlreadyExists ==> n in post.services
  {
    hide Stamp;
  }

  /** An update leaves endpoints without a service exactly when it comes too late. */
  lemma UpdateBacks(cfg: Config, remote: Remote, env: Env, st: State, ev: Event)
    requires ev.Updated? && Backed(cfg, st)
    ensures Backed(cfg, HandleUpdated(cfg, remote, env, st, ev).st) <==> !ComesLate(cfg, env, st, ev)
  {
    hide Backed, UpdateMode, MirrorKey, PutMirrorStatus, UpdatedLocal, Mirrored, Failure, UpdateService, ComesLate;
    var mk := MirrorKey(cfg.link, ev.key);
    UpdateModeBacks(cfg, remote, env, st, ev);
    var (st1, outcome) := UpdateMode(cfg, remote, env, st, ev);
    if outcome == Done {
      var local := UpdatedLocal(cfg, ev);
      var (st2, updated) := UpdateService(env, st1, mk, local);
      UpdateServiceIsEven(cfg, env, st1, mk, local);
      var c := if updated == Ok then Mirrored(mk) else Failure(REASON_ERROR);
      StatusIsEven(cfg, st2, ev.key, c);
    }
  }

  lemma UpdateServiceIsEven(cfg: Config, env: Env, st: State, k: Key, svc: Service)
    ensures Backed(cfg, UpdateService(env, st, k, svc).0) <==> Backed(cfg, st)
  {
    hide MirrorNamed;
    var post := UpdateService(env, st, k, svc).0;
    assert post.services.Keys == st.services.Keys;
  }

  lemma StatusIsEven(cfg: Config, st: State, k: Key, c: Condition)
    ensures Backed(cfg, PutMirrorStatus(cfg, st, k, c)) <==> Backed(cfg, st)
  {
    hide MirrorNamed, Update;
  }

  lemma UpdateModeBacks(cfg: Config, remote: Remote, env: Env, st: State, ev: Event)
    requires ev.Updated? && Backed(cfg, st)
    ensures Backed(cfg, UpdateMode(cfg, remote, env, st, ev).0) <==> !ComesLate(cfg, env, st, ev)
  {
    hide Backed, CreateGatewayEndpoints, ResolveGateway, ParseInt, GatewaySubsets, MirrorKey, IsRemoteDiscovery;
    hide Creatable, PutMirrorStatus, Failure, ByLiveness, UpdateEndpoints, DeleteEndpoints;
    var k := ev.key;
    var mk := MirrorKey(cfg.link, k);
    var none := Service(map[], map[], [], "", 0);
    if IsRemoteDiscovery(cfg.link, ev.svc.labels) {
      CallsBack(cfg, env, st, mk, none, Endpoints(map[], map[], [], 0));
      StatusIsEven(cfg, DeleteEndpoints(env, st, mk).0, k, Failure(REASON_ERROR));
    } else if ev.localEndpoints.None? {
      GatewayEndpointsBack(cfg, remote, env, st, k, ev.svc);
      StatusIsEven(cfg, CreateGatewayEndpoints(cfg, remote, env, st, k, ev.svc).0, k, Failure(REASON_ERROR));
    } else {
      StatusIsEven(cfg, st, k, Failure(REASON_ERROR));
      var addresses, ports := ResolveGateway(cfg.link, env.lookup), EndpointPorts(cfg.link, ev.svc.ports);
      if addresses.Some? && ports.Some? {
        var ep := ev.localEndpoints.value;
        var ep' := Endpoints(ep.labels, ep.annotations[GATEWAY_IDENTITY := cfg.link.gatewayIdentity],
                             GatewaySubsets(addresses.value, ports.value), ep.version);
        CallsBack(cfg, env, st, mk, none, ByLiveness(st, ep'));
        StatusIsEven(cfg, UpdateEndpoints(env, st, mk, ByLiveness(st, ep')).0, k, Failure(REASON_ERROR));
      }
    }
  }

  /* ---------- headless endpoints ---------- */

  lemma EndpointMirrorBacks(cfg: Config, env: Env, st: State, src: Source, host: string)
    ensures Backs(cfg, st, CreateEndpointMirror(cfg, env, st, src, host).st)
  {
    hide Backed, HostKey, NewEndpointMirror, NewEndpointMirrorEndpoints, ByLiveness, ResolveGateway, EndpointPorts;
    hide CreateService, CreateEndpoints, DeleteService;
    var k := HostKey(cfg, src, host);
    var svc := NewEndpointMirror(cfg, src, host);
    var addresses, ports := ResolveGateway(cfg.link, env.lookup), EndpointPorts(cfg.link, src.svc.ports);
    if addresses.Some? && ports.Some? {
      CallsBack(cfg, env, st, k, svc, Endpoints(map[], map[], [], 0));
      CreatedServiceIsThere(env, st, k, svc);
      var (st1, made) := CreateService(env, st, k, svc);
      var ep := ByLiveness(st1, NewEndpointMirrorEndpoints(cfg, src, host, addresses.value, ports.value));
      CallsBack(cfg, env, st1, k, svc, ep);
      var st2 := CreateEndpoints(env, st1, k, ep).0;
      CallsBack(cfg, env, st2, k, svc, ep);
    }
  }

  lemma {:induction false} SyncAddressesBack(cfg: Config, env: Env, src: Source, addresses: seq<Address>,
                                             acc: Sync<Address>)
    ensures Backs(cfg, acc.st, SyncAddresses(cfg, env, src, addresses, acc).st)
    decreases |addresses|
  {
    hide Backed, CreateEndpointMirror, HostKey;
    if addresses != [] && acc.outcome == Done {
      EndpointMirrorBacks(cfg, env, acc.st, src, addresses[0].hostname);
      SyncAddressesBack(cfg, env, src, addresses[1..], SyncAddress(cfg, env, src, addresses[0], acc));
    }
  }

  lemma {:induction false} SyncSubsetsBack(cfg: Config, env: Env, src: Source, subsets: seq<Subset>, acc: Sync<Subset>)
    ensures Backs(cfg, acc.st, SyncSubsets(cfg, env, src, subsets, acc).st)
    decreases |subsets|
  {
    hide Backed, SyncAddresses;
    if subsets != [] && acc.outcome == Done {
      SyncAddressesBack(cfg, env, src, subsets[0].addresses, Sync(acc.st, acc.wanted, [], Done));
      SyncSubsetsBack(cfg, env, src, subsets[1..], SyncSubset(cfg, env, src, subsets[0], acc));
    }
  }

  lemma {:induction false} MakeAddressesBack(cfg: Config, env: Env, src: Source, addresses: seq<Address>,
                                             acc: Sync<Address>)
    ensures Backs(cfg, acc.st, MakeAddresses(cfg, env, src, addresses, acc).st)
    decreases |addresses|
  {
    hide Backed, CreateEndpointMirror;
    if addresses != [] && acc.outcome == Done {
      EndpointMirrorBacks(cfg, env, acc.st, src, addresses[0].hostname);
      MakeAddressesBack(cfg, env, src, addresses[1..], MakeAddress(cfg, env, src, addresses[0], acc));
    }
  }

  lemma {:induction false} MakeSubsetsBack(cfg: Config, env: Env, src: Source, subsets: seq<Subset>, acc: Sync<Subset>)
    ensures Backs(cfg, acc.st, MakeSubsets(cfg, env, src, subsets, acc).st)
    decreases |subsets|
  {
    hide Backed, MakeAddresses;
    if subsets != [] && acc.outcome == Done {
      MakeAddressesBack(cfg, env, src, subsets[0].addresses, Sync(acc.st, {}, [], Done));
      MakeSubsetsBack(cfg, env, src, subsets[1..], MakeSubset(cfg, env, src, subsets[0], acc));
    }
  }

  lemma SyncHeadlessBacks(cfg: Config, env: Env, st: State, src: Source, exported: Endpoints, local: Endpoints)
    ensures Backs(cfg, st, SyncHeadless(cfg, env, st, src, exported, local).0)
  {
    hide Backed, SyncSubsets, MirrorKey, Unwanted, ByLiveness, Purge, UpdateEndpoints;
    var r := SyncSubsets(cfg, env, src, exported.subsets, Sync(st, {}, [], Done));
    SyncSubsetsBack(cfg, env, src, exported.subsets, Sync(st, {}, [], Done));
    var mk := MirrorKey(cfg.link, src.key);
    var unwanted := Unwanted(r.st, mk.name, r.wanted);
    SweepsBack(cfg, env, r.st, unwanted);
    var st1 := Purge(env, r.st, unwanted);
    CallsBack(cfg, env, st1, mk, Service(map[], map[], [], "", 0), ByLiveness(st1, local.(subsets := r.out)));
  }

  lemma CreateHeadlessBacks(cfg: Config, env: Env, st: State, src: Source, exported: Endpoints)
    requires var mk := MirrorKey(cfg.link, src.key); mk in st.services && mk !in st.endpoints
    requires Backed(cfg, st)
    ensures Backed(cfg, CreateHeadlessEndpoints(cfg, env, st, src, exported).0) <==>
              !(Toggles(cfg, env, st.namespaces, src)
                && EvenAndSome(Bearing(ReadyAddresses(exported.subsets), src.key.name))
                && !Dereferences(cfg, env, st.namespaces, st.endpoints.Keys, src, [], ReadyAddresses(exported.subsets)))
  {
    hide Backed, MakeSubsets, MirrorKey, Toggles, EndpointLabels, GatewayAnnotations, FqName, HasReady, MirrorNamed;
    hide DeleteService, Dereferences, CreateEndpoints;
    CreatingCrashes(cfg, env, st, src, exported);
    var start := Sync<Subset>.Sync(st, {}, [], Done);
    var mk := MirrorKey(cfg.link, src.key);
    var r := MakeSubsets(cfg, env, src, exported.subsets, start);
    SubsetsEnd(cfg, env, src, exported.subsets, start);
    MakeSubsetsBack(cfg, env, src, exported.subsets, start);
    MirrorIsShaped(cfg, src.key, map[]);
    assert mk.ns == src.key.ns by { SameNamespace(cfg, src.key); }
    if Toggles(cfg, env, st.namespaces, src) {
      TogglesCreate(cfg, env, st.namespaces, src);
    }
    if r.outcome == Done {
      LoopsDecide(cfg, env, st, src, exported.subsets);
      var ep := Endpoints(EndpointLabels(cfg.link, src.svc.labels),
                          GatewayAnnotations(cfg.link, FqName(cfg.link, src.key)), r.out, 0);
      CreateEndpointsAnswer(env, r.st, mk, ep);
      if CreateEndpoints(env, r.st, mk, ep).1 == Ok {
        CreatedIsBacked(cfg, env, r.st, mk, ep);
      } else {
        CallsBack(cfg, env, r.st, mk, Service(map[], map[], [], "", 0), ep);
      }
    }
  }

  lemma MadeService(cfg: Config, env: Env, st: State, src: Source, exported: Endpoints)
    requires MirrorKey(cfg.link, src.key) !in st.services
    ensures var made := CreateHeadlessService(cfg, env, st, src, exported); var mk := MirrorKey(cfg.link, src.key);
            && Backs(cfg, st, made.st) && made.st.endpoints == st.endpoints
            && (exported.subsets == [] ==> made == Created(st, "", Done))
            && (exported.subsets != [] && made.outcome == Done && mk !in made.st.services ==>
                  src.key.ns !in made.st.namespaces)
  {
    hide Backed, MirrorKey, NewMirror, ExportsAsHeadless, Stamp;
    var mk := MirrorKey(cfg.link, src.key);
    assert mk.ns == src.key.ns by { SameNamespace(cfg, src.key); }
    var clusterIP := if ExportsAsHeadless(exported) then CLUSTER_IP_NONE else "";
    var svc := NewMirror(cfg, src.key, src.svc, clusterIP);
    var st1 := EnsureNamespace(cfg, env, st, src.key.ns).0;
    CallsBack(cfg, env, st, mk, svc, Endpoints(map[], map[], [], 0));
    CallsBack(cfg, env, st1, mk, svc, Endpoints(map[], map[], [], 0));
  }

  /** A headless endpoints event leaves endpoints without a service exactly when it comes before the mirror and has
      no subsets, or under the guard that holds for a dead gateway too. */
  lemma HeadlessBacks(cfg: Config, remote: Remote, env: Env, st: State, k: Key, exported: Endpoints)
    requires Backed(cfg, st)
    ensures Backed(cfg, HandleHeadless(cfg, remote, env, st, k, exported).0) <==>
              !ComesEarly(cfg, remote, env, st, k, exported) && !LeavesOrphan(cfg, remote, env, st, k, exported)
  {
    hide Backed, MirrorKey, CreateHeadlessService, CreateGatewayEndpoints, CreateHeadlessEndpoints, SyncHeadless;
    hide Toggles, Dereferences, EnsureNamespace, ExportsAsHeadless, ResolveGateway, ParseInt, MirrorNamed;
    var mk := MirrorKey(cfg.link, k);
    MirrorIsShaped(cfg, k, map[]);
    if env.ok(RemoteGetService(k)) && k in remote.services && remote.services[k].ports != [] && env.ok(GetService(mk)) {
      var src := Source(k, remote.services[k], exported.version);
      var made := if mk in st.services then Created(st, st.services[mk].clusterIP, Done)
                  else CreateHeadlessService(cfg, env, st, src, exported);
      MadeHeadless(cfg, env, st, src, exported);
      if Toggles(cfg, env, EnsuredNamespaces(cfg, env, st, k), src) {
        TogglesCreate(cfg, env, EnsuredNamespaces(cfg, env, st, k), src);
      }
      if Bearing(ReadyAddresses(exported.subsets), k.name) > 0 {
        SelfNamedExports(k.name, exported);
      }
      if mk !in st.services {
        MadeService(cfg, env, st, src, exported);
        UnbackedIsAbsent(cfg, st, mk);
        assert |""| != |CLUSTER_IP_NONE|;
      }
      if made.outcome == Done && env.ok(GetEndpoints(mk)) {
        if mk in made.st.endpoints {
          SyncHeadlessBacks(cfg, env, made.st, src, exported, made.st.endpoints[mk]);
        } else if made.ip != CLUSTER_IP_NONE {
          GatewayEndpointsBack(cfg, remote, env, made.st, k, src.svc);
        } else {
          CreateHeadlessBacks(cfg, env, made.st, src, exported);
        }
      }
    }
  }

  lemma PlainEndpointsBack(cfg: Config, remote: Remote, env: Env, st: State, k: Key, exported: Endpoints)
    requires !IsHeadlessEndpoints(exported) || !cfg.headlessEnabled
    ensures Backs(cfg, st, HandleEndpoints(cfg, remote, env, st, k, exported).0)
  {
    hide Backed, MirrorKey, HandleHeadless, HasReady, GatewaySubsets, EndpointPorts, ResolveGateway, ByLiveness;
    hide UpdateEndpoints;
    var mk := MirrorKey(cfg.link, k);
    forall ep ensures Backs(cfg, st, UpdateEndpoints(env, st, mk, ep).0) {
      CallsBack(cfg, env, st, mk, Service(map[], map[], [], "", 0), ep);
    }
  }

  /* ---------- the other handlers ---------- */

  lemma UnexportBacks(cfg: Config, env: Env, st: State, k: Key)
    ensures Backs(cfg, st, HandleUnexported(cfg, env, st, k).0)
  {
    hide Backed, MirrorKey, DropMirrorStatus, EndpointMirrorsOf, Purge, DeleteService, Headless;
    var st1 := DropMirrorStatus(cfg, st, k);
    var mk := MirrorKey(cfg.link, k);
    StatusBacks(cfg, st, st, k, Failure(REASON_ERROR));
    SweepsBack(cfg, env, st1, EndpointMirrorsOf(st1, mk.name));
    SweepsBack(cfg, env, st1, {});
    forall st2: State ensures Backs(cfg, st2, DeleteService(env, st2, mk).0) {
      CallsBack(cfg, env, st2, mk, Service(map[], map[], [], "", 0), Endpoints(map[], map[], [], 0));
    }
  }

  lemma CollectionsBack(cfg: Config, remote: Remote, env: Env, st: State)
    ensures Backs(cfg, st, HandleGc(cfg, remote, env, st).0) && Backs(cfg, st, HandleCleanup(cfg, env, st).0)
  {
    hide Backed, Purge, PurgeEndpoints, Orphans, LinkServices, LinkEndpoints, OriginOf;
    SweepsBack(cfg, env, st, Orphans(cfg, remote, env, st));
    SweepsBack(cfg, env, st, LinkServices(cfg, st));
    var st1 := Purge(env, st, LinkServices(cfg, st));
    SweepsBack(cfg, env, st1, LinkEndpoints(cfg, st1));
  }

  lemma CreateFederatedBacks(cfg: Config, env: Env, st: State, k: Key, svc: Service)
    ensures Backs(cfg, st, HandleCreateFederated(cfg, env, st, k, svc).0)
  {
    hide Backed, CreatedAnnotations, CommonLabels, RemapPorts, PutFederatedStatus, Mirrored, Failure, Headless;
    hide EnsureNamespace, CreateService, FederatedKey;
    var fk := FederatedKey(k);
    var federated := Service(CommonLabels(svc.labels), CreatedAnnotations(cfg.link.cluster, k.name, svc.annotations),
                             RemapPorts(svc.ports), "", 0);
    var st1 := EnsureNamespace(cfg, env, st, k.ns).0;
    CallsBack(cfg, env, st, k, federated, Endpoints(map[], map[], [], 0));
    CallsBack(cfg, env, st1, fk, federated, Endpoints(map[], map[], [], 0));
    var st2 := CreateService(env, st1, fk, federated).0;
    forall c: Condition ensures
      && Backs(cfg, st, PutFederatedStatus(cfg, st, k, c)) && Backs(cfg, st1, PutFederatedStatus(cfg, st1, k, c))
      && Backs(cfg, st2, PutFederatedStatus(cfg, st2, k, c))
    {
      StatusBacks(cfg, st, st, k, c);
      StatusBacks(cfg, st1, st1, k, c);
      StatusBacks(cfg, st2, st2, k, c);
    }
  }

  lemma JoinBacks(cfg: Config, env: Env, st: State, ev: Event)
    requires ev.JoinFederated?
    ensures Backs(cfg, st, HandleJoin(cfg, env, st, ev).st)
  {
    hide Backed, JoinedAnnotations, FederatedKey, PutFederatedStatus, Mirrored, Failure, Headless, UpdateService;
    var fk := FederatedKey(ev.key);
    StatusBacks(cfg, st, st, ev.key, Failure(REASON_INVALID_SERVICE));
    var joined := JoinedAnnotations(cfg.link.cluster, ev.key.name, ev.local.annotations);
    if joined.Some? {
      var local := ev.local.(annotations := joined.value);
      CallsBack(cfg, env, st, fk, local, Endpoints(map[], map[], [], 0));
      var st1 := UpdateService(env, st, fk, local).0;
      StatusBacks(cfg, st1, st1, ev.key, Mirrored(fk));
      StatusBacks(cfg, st1, st1, ev.key, Failure(REASON_ERROR));
    }
  }

  lemma LeaveBacks(cfg: Config, env: Env, st: State, k: Key)
    ensures Backs(cfg, st, HandleLeave(cfg, env, st, k).0)
  {
    hide Backed, LeftAnnotations, NoMembers, FederatedKey, DropFederatedStatus, UpdateService, DeleteService;
    var fk := FederatedKey(k);
    var st1 := DropFederatedStatus(cfg, st, k);
    StatusBacks(cfg, st, st, k, Failure(REASON_ERROR));
    forall svc: Service ensures Backs(cfg, st1, UpdateService(env, st1, fk, svc).0) {
      CallsBack(cfg, env, st1, fk, svc, Endpoints(map[], map[], [], 0));
    }
    CallsBack(cfg, env, st1, fk, Service(map[], map[], [], "", 0), Endpoints(map[], map[], [], 0));
    var st2 := DeleteService(env, st1, fk).0;
    StatusBacks(cfg, st2, st2, k, Failure(REASON_ERROR));
  }

  lemma ProbeIsMirrorNamed(cfg: Config)
    ensures MirrorNamed(cfg, ProbeKey(cfg))
  {
    var name, suffix := ProbeGatewayName(cfg.link), "-" + cfg.link.cluster;
    assert name == "probe-gateway" + suffix;
    assert name[|name| - |suffix|..] == suffix;
  }

  /** A repair leaves endpoints without a service exactly when the link has no probe service and the probe endpoints
      are created all the same. */
  lemma RepairBacks(cfg: Config, remote: Remote, env: Env, st: State)
    requires Backed(cfg, st)
    ensures Backed(cfg, HandleRepair(cfg, remote, env, st).0) <==> !LacksProbe(cfg, env, st)
  {
    hide Backed, ResolveGateway, RepairProbe, RepairOne, ParseInt, ProbeKey;
    var addresses := ResolveGateway(cfg.link, env.lookup);
    if addresses.Some? {
      var st1 := RepairProbe(cfg, env, st, addresses.value);
      RepairProbeBacks(cfg, env, st, addresses.value);
      RepairAllIsEven(cfg, remote, env, st1, addresses.value);
    }
  }

  lemma RepairAllIsEven(cfg: Config, remote: Remote, env: Env, st: State, addresses: seq<Address>)
    ensures Backed(cfg, RepairAll(cfg, remote, env, st, addresses)) <==> Backed(cfg, st)
  {
    hide RepairOne, MirrorNamed;
    var post := RepairAll(cfg, remote, env, st, addresses);
    assert forall n :: n in post.endpoints <==> n in st.endpoints;
  }

  lemma RepairProbeBacks(cfg: Config, env: Env, st: State, addresses: seq<Address>)
    requires Backed(cfg, st) && ResolveGateway(cfg.link, env.lookup).Some?
    ensures Backed(cfg, RepairProbe(cfg, env, st, addresses)) <==> !LacksProbe(cfg, env, st)
  {
    hide Backed, ResolveGateway, ParseInt, ProbeKey, ProbeEndpoints, CreateEndpoints, MirrorNamed;
    var n := ProbeKey(cfg);
    ProbeIsMirrorNamed(cfg);
    if n !in st.services { UnbackedIsAbsent(cfg, st, n); }
    var port := ParseInt(cfg.link.probePort, HALF_32);
    if port.Some? {
      var ep := ProbeEndpoints(cfg, addresses, port.value);
      CreateEndpointsAnswer(env, st, n, ep);
      if CreateEndpoints(env, st, n, ep).1 == Ok {
        CreatedIsBacked(cfg, env, st, n, ep);
      }
      if n in st.endpoints {
        RewrittenIsBacked(cfg, st, n, ep.(version := st.now));
      }
    }
  }

  lemma RewrittenIsBacked(cfg: Config, st: State, n: Key, ep: Endpoints)
    requires Backed(cfg, st) && n in st.endpoints
    ensures Backed(cfg, st.(endpoints := st.endpoints[n := ep]))
  {
    hide MirrorNamed;
  }

  /* ---------- every event ---------- */

  lemma QueueingBacks(cfg: Config, remote: Remote, env: Env, st: State, ev: Event)
    requires ev.OnAdd? || ev.OnUpdate? || ev.OnDelete? || ev.NamespaceAdded?
    ensures Backs(cfg, st, Handle(cfg, remote, env, st, ev).st)
  {
    hide MirrorDecision, OnAdds, IsFederatedMember, Desired, Update, FederatedKey, MirrorNamed, Failure;
  }

  /** Whatever calls fail and whatever the gateway's liveness: an event leaves endpoints under a mirror name without a
      service exactly when it is an update to gateway mode that comes after its mirror has gone, a headless endpoints
      event that comes before it or takes it away again, or a repair of a link without a probe service. */
  lemma OnlyTheseStrand(cfg: Config, remote: Remote, env: Env, st: State, ev: Event)
    requires Backed(cfg, st)
    ensures Backed(cfg, Handle(cfg, remote, env, st, ev).st) <==> !Strands(cfg, remote, env, st, ev)
  {
    hide Backed, CreateOrUpdate, HandleEndpoints, HandleExported, HandleUpdated, HandleUnexported, HandleHeadless;
    hide HandleCreateFederated, HandleJoin, HandleLeave, HandleCleanup, HandleGc, HandleRepair, HandleDelete;
    hide HandleNamespaceAdded, ComesLate, ComesEarly, LeavesOrphan, LacksProbe, IsHeadlessEndpoints;
    CollectionsBack(cfg, remote, env, st);
    match ev
    case OnAdd(_, _) => QueueingBacks(cfg, remote, env, st, ev);
    case OnUpdate(_, _) => QueueingBacks(cfg, remote, env, st, ev);
    case OnDelete(_, _) => QueueingBacks(cfg, remote, env, st, ev);
    case NamespaceAdded(_) => QueueingBacks(cfg, remote, env, st, ev);
    case OnAddEndpoints(k, ep) => EndpointsBack(cfg, remote, env, st, ev);
    case OnUpdateEndpoints(k, ep) => EndpointsBack(cfg, remote, env, st, ev);
    case Exported(k, svc) => ExportBacks(cfg, remote, env, st, k, svc);
    case Updated(_, _, _, _) => UpdateBacks(cfg, remote, env, st, ev);
    case Unexported(k) => UnexportBacks(cfg, env, st, k);
    case CreateFederated(k, svc) => CreateFederatedBacks(cfg, env, st, k, svc);
    case JoinFederated(_, _, _) => JoinBacks(cfg, env, st, ev);
    case LeaveFederated(k) => LeaveBacks(cfg, env, st, k);
    case RepairEndpoints => RepairBacks(cfg, remote, env, st);
    case _ =>
  }

  lemma EndpointsBack(cfg: Config, remote: Remote, env: Env, st: State, ev: Event)
    requires Backed(cfg, st) && (ev.OnAddEndpoints? || ev.OnUpdateEndpoints?)
    ensures Backed(cfg, Handle(cfg, remote, env, st, ev).st) <==> !Strands(cfg, remote, env, st, ev)
  {
    hide Backed, HandleHeadless, ComesEarly, LeavesOrphan, IsHeadlessEndpoints, HandleEndpoints;
    if HeadlessEvent(cfg, ev) {
      HeadlessEventIsHandled(cfg, remote, env, st, ev);
      HeadlessBacks(cfg, remote, env, st, ev.key, ev.ep);
    } else {
      PlainEndpointsBack(cfg, remote, env, st, ev.key, ev.ep);
    }
  }

  /* ---------- whole runs of a link without discovery mode ---------- */

  /** Nothing that is handled strands endpoints, and the repair of a dead gateway after which none is queued goes
      through. */
  ghost predicate Steady(cfg: Config, sys: System, move: Move) {
    match move
    case Process(i, env) =>
      && i < |sys.queue| && ValidEnv(env) && !Strands(cfg, sys.remote, env, sys.st, sys.queue[i].event)
      && (sys.queue[i].event.RepairEndpoints? && !sys.st.gatewayAlive && !RepairQueued(Step(cfg, sys, i, env).queue) ==>
            RepairSucceeds(cfg, env))
    case Informer(_, _, ev) => FromOutside(ev)
    case SetAlive(_) => true
    case Tick => true
  }

  ghost predicate SteadyRun(cfg: Config, sys: System, moves: seq<Move>)
    decreases |moves|
  {
    moves == [] ||
    (BareMove(cfg, moves[0]) && Steady(cfg, sys, moves[0]) && SteadyRun(cfg, Next(cfg, sys, moves[0]), moves[1..]))
  }

  lemma BackedHasNoOrphans(cfg: Config, st: State, namespaces: set<string>)
    requires Backed(cfg, st) && !Discoverable(cfg.link)
    ensures NoOrphans(cfg, st.(namespaces := namespaces))
  {
    hide MirrorNamed, HasReady, Discoverable, OfLink, Headless;
  }

  lemma BackedSuffices(cfg: Config, env: Env, st: State)
    requires Backed(cfg, st) && !Discoverable(cfg.link) && NothingSkipped(cfg, st)
    requires RepairSucceeds(cfg, env) && !LacksProbe(cfg, env, st)
    ensures RepairSuffices(cfg, st)
  {
    hide MirrorNamed, HasReady, Discoverable, OfLink, Headless, ResolveGateway, ParseInt, ProbeKey, NothingSkipped;
    assert forall c :: env.ok(c);
    forall n | ReadyForRepair(cfg, st, n) ensures !Unclaimed(cfg, st, n) {
      if n !in st.services && MirrorNamed(cfg, n) {
        UnbackedIsAbsent(cfg, st, n);
      }
    }
  }

  lemma SteadyIsAdmissible(cfg: Config, sys: System, move: Move)
    requires Backed(cfg, sys.st) && !Discoverable(cfg.link) && NothingSkipped(cfg, sys.st) && Steady(cfg, sys, move)
    ensures Admissible(cfg, sys, move)
  {
    hide Backed, NothingSkipped, RepairSucceeds, RepairSuffices, LacksProbe, LeavesOrphan, ComesEarly, ComesLate;
    hide HeadlessEvent, NoOrphans, Step, RepairQueued, ValidEnv, Discoverable;
    match move
    case Process(i, env) =>
      if RepairSucceeds(cfg, env) && sys.queue[i].event.RepairEndpoints? {
        BackedSuffices(cfg, env, sys.st);
      }
    case Informer(_, namespaces, _) => BackedHasNoOrphans(cfg, sys.st, namespaces);
    case _ =>
  }

  lemma SteadyStaysBacked(cfg: Config, sys: System, move: Move)
    requires Backed(cfg, sys.st) && Steady(cfg, sys, move)
    ensures Backed(cfg, Next(cfg, sys, move).st)
  {
    hide Strands, RepairSucceeds, ValidEnv, RepairQueued, Handle;
    if move.Process? {
      OnlyTheseStrand(cfg, sys.remote, move.env, sys.st, sys.queue[move.index].event);
    }
  }

  lemma {:induction false} SteadyRunIsBare(cfg: Config, sys: System, moves: seq<Move>)
    requires Backed(cfg, sys.st) && !Discoverable(cfg.link) && AllBare(cfg, sys) && SteadyRun(cfg, sys, moves)
    ensures BareRun(cfg, sys, moves)
    decreases |moves|
  {
    hide Backed, Discoverable, AllBare, BareMove, NothingSkipped, Admissible, Next, Strands, ValidEnv, RepairSucceeds;
    hide RepairQueued;
    if moves != [] {
      BareIsNotSkipped(cfg, sys);
      SteadyIsAdmissible(cfg, sys, moves[0]);
      SteadyStaysBacked(cfg, sys, moves[0]);
      MoveStaysBare(cfg, sys, moves[0]);
      SteadyRunIsBare(cfg, Next(cfg, sys, moves[0]), moves[1..]);
    }
  }

  /** A link without discovery mode, started with no endpoints that lack a service: while no event meets the guard
      under which it strands endpoints, a dead gateway leaves nothing ready once its repair has gone through. Nothing
      is asked of the store when that repair is handled. */
  lemma SteadyLinksAreSafe(cfg: Config, sys: System, moves: seq<Move>)
    requires Backed(cfg, sys.st) && !Discoverable(cfg.link) && AllBare(cfg, sys) && SteadyRun(cfg, sys, moves)
    requires Consistent(cfg, sys) && Shielded(cfg, sys)
    ensures AdmissibleRun(cfg, sys, moves)
    ensures Safe(cfg, After(cfg, sys, moves))
  {
    hide Backed, Discoverable, AllBare, SteadyRun, BareRun, AdmissibleRun, After, Consistent, Shielded, Safe;
    SteadyRunIsBare(cfg, sys, moves);
    GatewayLinksAreSafe(cfg, sys, moves);
  }
}
