/** What every handler keeps, whatever fails on the way. The claims compose, so they are proved once per
    API call and then chained through each handler. */
module Effects {
  import opened Strings
  import opened Kubernetes
  import opened Mirror
  import opened StatusList
  import opened Federation
  import opened Api
  import opened HeadlessMirror
  import opened Handlers

  type State = Api.State

  /* ---------- the claims ---------- */

  /** The service at n stands for the remote service k: its mirror, or one of its endpoint mirrors. */
  predicate Represents(cfg: Config, n: Key, labels: Labels, k: Key) {
    && n.ns == k.ns
    && if HEADLESS_NAME in labels then labels[HEADLESS_NAME] == MirrorName(cfg.link, k.name)
       else n == MirrorKey(cfg.link, k)
  }

  /** Names that end in the link's suffix. */
  predicate MirrorNamed(cfg: Config, n: Key) {
    HasSuffix(n.name, "-" + cfg.link.cluster)
  }

  /** A service with this link's labels stands for some remote service and is named like a mirror. */
  ghost predicate Shaped(cfg: Config, n: Key, labels: Labels) {
    OfLink(cfg.link, labels) ==> MirrorNamed(cfg, n) && exists k :: Represents(cfg, n, labels, k)
  }

  ghost predicate ShapeOk(cfg: Config, st: State) {
    forall n :: n in st.services ==> Shaped(cfg, n, st.services[n].labels)
  }

  predicate ReadyAt(st: State, n: Key) {
    n in st.endpoints && HasReady(st.endpoints[n].subsets)
  }

  /** A service of this link answers to traffic. */
  predicate Exposed(cfg: Config, st: State, n: Key) {
    n in st.services && Fronts(cfg.link, st.services[n]) && ReadyAt(st, n)
  }

  ghost predicate Protected(cfg: Config, st: State) {
    forall n :: ReadyAt(st, n) ==> !Exposed(cfg, st, n)
  }

  /** Not the link's, but an update to discovery mode would make it so without looking at its endpoints. */
  ghost predicate Waiting(cfg: Config, svc: Service) {
    Discoverable(cfg.link) && !OfLink(cfg.link, svc.labels) && !Headless(svc) && REMOTE_VERSION in svc.annotations
  }

  /** No service of this link stands under a mirror name yet, but one could come to. */
  ghost predicate Unclaimed(cfg: Config, st: State, n: Key) {
    MirrorNamed(cfg, n) &&
    if n in st.services then Waiting(cfg, st.services[n]) else n.ns in st.namespaces || cfg.namespaceCreation
  }

  /** Ready endpoints that a service of this link could come to stand in front of. */
  ghost predicate Orphaned(cfg: Config, st: State, n: Key) {
    Unclaimed(cfg, st, n) && ReadyAt(st, n)
  }

  ghost predicate Guarded(cfg: Config, st: State) {
    forall n :: ReadyAt(st, n) ==> !Exposed(cfg, st, n) && !Orphaned(cfg, st, n)
  }

  ghost predicate Frame(pre: State, post: State) {
    && post.gatewayAlive == pre.gatewayAlive
    && post.now == pre.now
    && pre.namespaces <= post.namespaces
    && forall n :: n in post.services ==>
         (n in pre.services && post.services[n] == pre.services[n]) || post.services[n].version == pre.now
  }

  /** One effect of a handler: reflexive, transitive, and true of every call a handler makes. */
  ghost predicate Good(cfg: Config, pre: State, post: State) {
    && Frame(pre, post)
    && (ShapeOk(cfg, pre) ==> ShapeOk(cfg, post))
    && (!pre.gatewayAlive && Guarded(cfg, pre) ==> Guarded(cfg, post))
    && (post.namespaces == pre.namespaces || cfg.namespaceCreation)
  }

  lemma GoodTransitive(cfg: Config, a: State, b: State, c: State)
    requires Good(cfg, a, b) && Good(cfg, b, c)
    ensures Good(cfg, a, c)
  {
    hide ShapeOk, Guarded;
  }

  /* ---------- one call at a time ---------- */

  /** Only status lists or namespaces differ. */
  predicate SameObjects(pre: State, post: State) {
    post.services == pre.services && post.endpoints == pre.endpoints && post.gatewayAlive == pre.gatewayAlive
    && post.now == pre.now
  }

  lemma SameObjectsGood(cfg: Config, pre: State, post: State)
    requires SameObjects(pre, post) && post.namespaces == pre.namespaces
    ensures Good(cfg, pre, post)
  {
    hide MirrorNamed, Fronts, Waiting, HasReady, Shaped;
    if Guarded(cfg, pre) {
      forall n | ReadyAt(post, n) ensures !Exposed(cfg, post, n) && !Orphaned(cfg, post, n) {
        assert ReadyAt(pre, n);
      }
    }
  }

  lemma EnsureNamespaceGood(cfg: Config, env: Env, st: State, ns: string)
    ensures Good(cfg, st, EnsureNamespace(cfg, env, st, ns).0)
    ensures EnsureNamespace(cfg, env, st, ns).1 == Present ==> ns in EnsureNamespace(cfg, env, st, ns).0.namespaces
  {
    hide MirrorNamed, Fronts, Waiting, HasReady, Shaped;
    var post := EnsureNamespace(cfg, env, st, ns).0;
    if Guarded(cfg, st) {
      forall n | ReadyAt(post, n) ensures !Exposed(cfg, post, n) && !Orphaned(cfg, post, n) {
        assert ReadyAt(st, n);
      }
    }
  }

  lemma StatusGood(cfg: Config, st: State, k: Key, c: Condition)
    ensures Good(cfg, st, PutMirrorStatus(cfg, st, k, c)) && Good(cfg, st, DropMirrorStatus(cfg, st, k))
    ensures Good(cfg, st, PutFederatedStatus(cfg, st, k, c)) && Good(cfg, st, DropFederatedStatus(cfg, st, k))
  {
    hide Good, Update, Delete;
    SameObjectsGood(cfg, st, PutMirrorStatus(cfg, st, k, c));
    SameObjectsGood(cfg, st, DropMirrorStatus(cfg, st, k));
    SameObjectsGood(cfg, st, PutFederatedStatus(cfg, st, k, c));
    SameObjectsGood(cfg, st, DropFederatedStatus(cfg, st, k));
  }

  /** A new service is named and labelled as a mirror, or it is not this link's. */
  ghost predicate MayCreate(cfg: Config, k: Key, svc: Service) {
    Shaped(cfg, k, svc.labels) && (OfLink(cfg.link, svc.labels) ==> MirrorNamed(cfg, k))
  }

  lemma CreateServiceGood(cfg: Config, env: Env, st: State, k: Key, svc: Service)
    requires MayCreate(cfg, k, svc)
    ensures Good(cfg, st, CreateService(env, st, k, svc).0)
  {
    hide MirrorNamed, OfLink, HasReady, Shaped, Headless;
    var post := CreateService(env, st, k, svc).0;
    if Guarded(cfg, st) {
      forall n | ReadyAt(post, n) ensures !Exposed(cfg, post, n) && !Orphaned(cfg, post, n) {
        assert ReadyAt(st, n);
      }
    }
  }

  lemma DeleteServiceGood(cfg: Config, env: Env, st: State, k: Key)
    ensures Good(cfg, st, DeleteService(env, st, k).0)
  {
    hide MirrorNamed, Fronts, Waiting, HasReady, Shaped;
    var post := DeleteService(env, st, k).0;
    if Guarded(cfg, st) {
      forall n | ReadyAt(post, n) ensures !Exposed(cfg, post, n) && !Orphaned(cfg, post, n) {
        assert ReadyAt(st, n);
      }
    }
  }

  lemma PurgeGood(cfg: Config, env: Env, st: State, keys: set<Key>)
    ensures Good(cfg, st, Purge(env, st, keys))
  {
    hide MirrorNamed, Fronts, Waiting, HasReady, Shaped;
    var post := Purge(env, st, keys);
    if Guarded(cfg, st) {
      forall n | ReadyAt(post, n) ensures !Exposed(cfg, post, n) && !Orphaned(cfg, post, n) {
        assert ReadyAt(st, n);
      }
    }
  }

  /** Ready endpoints behind this service would matter now or could later. */
  ghost predicate Matters(cfg: Config, svc: Service) {
    Fronts(cfg.link, svc) || Waiting(cfg, svc)
  }

  /** Rewriting a service must not make ready endpoints matter that did not. */
  ghost predicate MayUpdate(cfg: Config, st: State, k: Key, svc: Service) {
    && Shaped(cfg, k, svc.labels)
    && (!st.gatewayAlive && ReadyAt(st, k) && k in st.services && st.services[k].version == svc.version
        && Matters(cfg, svc) ==>
          Matters(cfg, st.services[k]))
  }

  lemma ShapedIsNamed(cfg: Config, n: Key, labels: Labels)
    requires Shaped(cfg, n, labels)
    ensures OfLink(cfg.link, labels) ==> MirrorNamed(cfg, n)
  {
  }

  lemma UpdateServiceGood(cfg: Config, env: Env, st: State, k: Key, svc: Service)
    requires MayUpdate(cfg, st, k, svc)
    ensures Good(cfg, st, UpdateService(env, st, k, svc).0)
  {
    hide MirrorNamed, OfLink, HasReady, Shaped, Discoverable;
    var post := UpdateService(env, st, k, svc).0;
    ShapedIsNamed(cfg, k, svc.labels);
    if !st.gatewayAlive && Guarded(cfg, st) {
      forall n | ReadyAt(post, n) ensures !Exposed(cfg, post, n) && !Orphaned(cfg, post, n) {
        assert ReadyAt(st, n);
      }
    }
  }

  /** Endpoints only ever lose ready addresses when the gateway is dead. */
  ghost predicate Fewer(pre: State, post: State) {
    && post.services == pre.services && post.namespaces == pre.namespaces
    && post.gatewayAlive == pre.gatewayAlive && post.now == pre.now
    && (!pre.gatewayAlive ==> forall n :: ReadyAt(post, n) ==> ReadyAt(pre, n))
  }

  lemma FewerGood(cfg: Config, pre: State, post: State)
    requires Fewer(pre, post)
    ensures Good(cfg, pre, post)
  {
    hide MirrorNamed, Fronts, Waiting, ReadyAt, Shaped;
  }

  lemma CreateEndpointsGood(cfg: Config, env: Env, st: State, k: Key, ep: Endpoints)
    ensures Good(cfg, st, CreateEndpoints(env, st, k, ByLiveness(st, ep)).0)
    ensures var (post, r) := CreateEndpoints(env, st, k, ByLiveness(st, ep));
            r == Ok && !st.gatewayAlive ==> !ReadyAt(post, k)
  {
    hide Good, Readiness, HasReady;
    ReadinessLaws(st.gatewayAlive, ep.subsets);
    FewerGood(cfg, st, CreateEndpoints(env, st, k, ByLiveness(st, ep)).0);
  }

  lemma UpdateEndpointsGood(cfg: Config, env: Env, st: State, k: Key, ep: Endpoints)
    ensures Good(cfg, st, UpdateEndpoints(env, st, k, ByLiveness(st, ep)).0)
    ensures var (post, r) := UpdateEndpoints(env, st, k, ByLiveness(st, ep));
            r == Ok && !st.gatewayAlive ==> !ReadyAt(post, k)
  {
    hide Good, Readiness, HasReady;
    ReadinessLaws(st.gatewayAlive, ep.subsets);
    FewerGood(cfg, st, UpdateEndpoints(env, st, k, ByLiveness(st, ep)).0);
  }

  lemma DeleteEndpointsGood(cfg: Config, env: Env, st: State, k: Key)
    ensures Good(cfg, st, DeleteEndpoints(env, st, k).0)
    ensures DeleteEndpoints(env, st, k).1 == Ok ==> !ReadyAt(DeleteEndpoints(env, st, k).0, k)
  {
    hide Good, HasReady;
    FewerGood(cfg, st, DeleteEndpoints(env, st, k).0);
  }

  lemma PurgeEndpointsGood(cfg: Config, env: Env, st: State, keys: set<Key>)
    ensures Good(cfg, st, PurgeEndpoints(env, st, keys))
  {
    hide Good, HasReady;
    FewerGood(cfg, st, PurgeEndpoints(env, st, keys));
  }

  /* ---------- the labels that handlers write ---------- */

  lemma MirrorIsShaped(cfg: Config, k: Key, labels: Labels)
    ensures Shaped(cfg, MirrorKey(cfg.link, k), MirrorLabels(cfg.link, k, labels))
    ensures MirrorNamed(cfg, MirrorKey(cfg.link, k))
  {
    MirrorLabelFacts(cfg.link, k, labels);
    var mk := MirrorKey(cfg.link, k);
    assert mk.name[|mk.name| - |"-" + cfg.link.cluster|..] == "-" + cfg.link.cluster;
    assert Represents(cfg, mk, MirrorLabels(cfg.link, k, labels), k);
  }

  lemma EndpointMirrorIsShaped(cfg: Config, src: Source, host: string)
    ensures Shaped(cfg, HostKey(cfg, src, host), EndpointMirrorLabels(cfg, src))
    ensures MirrorNamed(cfg, HostKey(cfg, src, host))
  {
    hide MirrorLabels, OfLink;
    var n := HostKey(cfg, src, host);
    assert n.name[|n.name| - |"-" + cfg.link.cluster|..] == "-" + cfg.link.cluster;
    assert Represents(cfg, n, EndpointMirrorLabels(cfg, src), src.key);
  }

  /* ---------- one handler at a time ---------- */

  lemma GatewayEndpointsGood(cfg: Config, remote: Remote, env: Env, st: State, k: Key, svc: Service)
    ensures Good(cfg, st, CreateGatewayEndpoints(cfg, remote, env, st, k, svc).0)
    ensures var (post, outcome) := CreateGatewayEndpoints(cfg, remote, env, st, k, svc);
            outcome == Done && !st.gatewayAlive ==> !ReadyAt(post, MirrorKey(cfg.link, k))
  {
    hide Good, ResolveGateway, EndpointPorts, NewGatewayEndpoints, ByLiveness, MirrorKey;
    hide CreateEndpoints, DeleteService, ReadyAt;
    SameObjectsGood(cfg, st, st);
    var addresses := ResolveGateway(cfg.link, env.lookup);
    var ports := EndpointPorts(cfg.link, svc.ports);
    if addresses.Some? && ports.Some? {
      var mk := MirrorKey(cfg.link, k);
      var ep := NewGatewayEndpoints(cfg, remote, k, svc, addresses.value, ports.value);
      CreateEndpointsGood(cfg, env, st, mk, ep);
      var st1 := CreateEndpoints(env, st, mk, ByLiveness(st, ep)).0;
      DeleteServiceGood(cfg, env, st1, mk);
      GoodTransitive(cfg, st, st1, DeleteService(env, st1, mk).0);
    }
  }

  lemma EndpointMirrorGood(cfg: Config, env: Env, st: State, src: Source, host: string)
    ensures Good(cfg, st, CreateEndpointMirror(cfg, env, st, src, host).st)
  {
    hide Good, ResolveGateway, EndpointPorts, NewEndpointMirrorEndpoints, ByLiveness, HostKey, EndpointMirrorLabels;
    hide CreateService, CreateEndpoints, DeleteService, MirrorNamed, Shaped, OfLink;
    SameObjectsGood(cfg, st, st);
    var addresses := ResolveGateway(cfg.link, env.lookup);
    var ports := EndpointPorts(cfg.link, src.svc.ports);
    if addresses.Some? && ports.Some? {
      var k := HostKey(cfg, src, host);
      var svc := NewEndpointMirror(cfg, src, host);
      EndpointMirrorIsShaped(cfg, src, host);
      CreateServiceGood(cfg, env, st, k, svc);
      var st1 := CreateService(env, st, k, svc).0;
      var ep := NewEndpointMirrorEndpoints(cfg, src, host, addresses.value, ports.value);
      CreateEndpointsGood(cfg, env, st1, k, ep);
      var st2 := CreateEndpoints(env, st1, k, ByLiveness(st1, ep)).0;
      GoodTransitive(cfg, st, st1, st2);
      DeleteServiceGood(cfg, env, st2, k);
      GoodTransitive(cfg, st, st2, DeleteService(env, st2, k).0);
    }
  }

  lemma {:induction false} SyncAddressesGood(cfg: Config, env: Env, src: Source, addresses: seq<Address>,
                                             acc: Sync<Address>)
    ensures Good(cfg, acc.st, SyncAddresses(cfg, env, src, addresses, acc).st)
    decreases |addresses|
  {
    hide Good, CreateEndpointMirror, HostKey;
    SameObjectsGood(cfg, acc.st, acc.st);
    if addresses != [] && acc.outcome == Done {
      var next := SyncAddress(cfg, env, src, addresses[0], acc);
      EndpointMirrorGood(cfg, env, acc.st, src, addresses[0].hostname);
      SyncAddressesGood(cfg, env, src, addresses[1..], next);
      GoodTransitive(cfg, acc.st, next.st, SyncAddresses(cfg, env, src, addresses[1..], next).st);
    }
  }

  lemma {:induction false} SyncSubsetsGood(cfg: Config, env: Env, src: Source, subsets: seq<Subset>, acc: Sync<Subset>)
    ensures Good(cfg, acc.st, SyncSubsets(cfg, env, src, subsets, acc).st)
    decreases |subsets|
  {
    hide Good, SyncAddresses;
    SameObjectsGood(cfg, acc.st, acc.st);
    if subsets != [] && acc.outcome == Done {
      var next := SyncSubset(cfg, env, src, subsets[0], acc);
      SyncAddressesGood(cfg, env, src, subsets[0].addresses, Sync(acc.st, acc.wanted, [], Done));
      SyncSubsetsGood(cfg, env, src, subsets[1..], next);
      GoodTransitive(cfg, acc.st, next.st, SyncSubsets(cfg, env, src, subsets[1..], next).st);
    }
  }

  lemma {:induction false} MakeAddressesGood(cfg: Config, env: Env, src: Source, addresses: seq<Address>,
                                             acc: Sync<Address>)
    ensures Good(cfg, acc.st, MakeAddresses(cfg, env, src, addresses, acc).st)
    decreases |addresses|
  {
    hide Good, CreateEndpointMirror;
    SameObjectsGood(cfg, acc.st, acc.st);
    if addresses != [] && acc.outcome == Done {
      var next := MakeAddress(cfg, env, src, addresses[0], acc);
      EndpointMirrorGood(cfg, env, acc.st, src, addresses[0].hostname);
      MakeAddressesGood(cfg, env, src, addresses[1..], next);
      GoodTransitive(cfg, acc.st, next.st, MakeAddresses(cfg, env, src, addresses[1..], next).st);
    }
  }

  lemma {:induction false} MakeSubsetsGood(cfg: Config, env: Env, src: Source, subsets: seq<Subset>, acc: Sync<Subset>)
    ensures Good(cfg, acc.st, MakeSubsets(cfg, env, src, subsets, acc).st)
    decreases |subsets|
  {
    hide Good, MakeAddresses;
    SameObjectsGood(cfg, acc.st, acc.st);
    if subsets != [] && acc.outcome == Done {
      var next := MakeSubset(cfg, env, src, subsets[0], acc);
      MakeAddressesGood(cfg, env, src, subsets[0].addresses, Sync(acc.st, {}, [], Done));
      MakeSubsetsGood(cfg, env, src, subsets[1..], next);
      GoodTransitive(cfg, acc.st, next.st, MakeSubsets(cfg, env, src, subsets[1..], next).st);
    }
  }

  lemma SyncHeadlessGood(cfg: Config, env: Env, st: State, src: Source, exported: Endpoints, local: Endpoints)
    ensures Good(cfg, st, SyncHeadless(cfg, env, st, src, exported, local).0)
  {
    hide Good, SyncSubsets, ByLiveness, MirrorKey, Unwanted, Purge, UpdateEndpoints;
    var r := SyncSubsets(cfg, env, src, exported.subsets, Sync(st, {}, [], Done));
    SyncSubsetsGood(cfg, env, src, exported.subsets, Sync(st, {}, [], Done));
    var mk := MirrorKey(cfg.link, src.key);
    var unwanted := Unwanted(r.st, mk.name, r.wanted);
    PurgeGood(cfg, env, r.st, unwanted);
    var st1 := Purge(env, r.st, unwanted);
    GoodTransitive(cfg, st, r.st, st1);
    UpdateEndpointsGood(cfg, env, st1, mk, local.(subsets := r.out));
    GoodTransitive(cfg, st, st1, UpdateEndpoints(env, st1, mk, ByLiveness(st1, local.(subsets := r.out))).0);
  }

  /* ---------- what a whole handler keeps ---------- */

  /** Like Good, except that the last call may leave orphaned endpoints behind. */
  ghost predicate Kept(cfg: Config, pre: State, post: State) {
    && Frame(pre, post)
    && (ShapeOk(cfg, pre) ==> ShapeOk(cfg, post))
    && (!pre.gatewayAlive && Guarded(cfg, pre) ==> Protected(cfg, post))
  }

  lemma GoodIsKept(cfg: Config, pre: State, post: State)
    requires Good(cfg, pre, post)
    ensures Kept(cfg, pre, post)
  {
    hide ShapeOk, Exposed, Orphaned, ReadyAt;
  }

  lemma GoodThenKept(cfg: Config, a: State, b: State, c: State)
    requires Good(cfg, a, b) && Kept(cfg, b, c)
    ensures Kept(cfg, a, c)
  {
    hide ShapeOk, Guarded, Protected;
  }

  /** A clusterIP service under this key already has endpoints, or can get none in this run. */
  predicate Settled(env: Env, st: State, mk: Key) {
    mk in st.services && !Headless(st.services[mk]) ==> mk in st.endpoints || !env.ok(CreateEndpointsCall(mk))
  }

  lemma EndpointMirrorSettles(cfg: Config, env: Env, st: State, src: Source, host: string, mk: Key)
    requires Settled(env, st, mk)
    ensures Settled(env, CreateEndpointMirror(cfg, env, st, src, host).st, mk)
  {
    hide ResolveGateway, EndpointPorts, NewEndpointMirrorEndpoints, ByLiveness, HostKey, NewEndpointMirror, Stamp;
  }

  lemma {:induction false} MakeAddressesSettle(cfg: Config, env: Env, src: Source, addresses: seq<Address>,
                                               acc: Sync<Address>, mk: Key)
    requires Settled(env, acc.st, mk)
    ensures Settled(env, MakeAddresses(cfg, env, src, addresses, acc).st, mk)
    decreases |addresses|
  {
    if addresses != [] && acc.outcome == Done {
      hide CreateEndpointMirror, Settled;
      var next := MakeAddress(cfg, env, src, addresses[0], acc);
      EndpointMirrorSettles(cfg, env, acc.st, src, addresses[0].hostname, mk);
      MakeAddressesSettle(cfg, env, src, addresses[1..], next, mk);
    }
  }

  lemma {:induction false} MakeSubsetsSettle(cfg: Config, env: Env, src: Source, subsets: seq<Subset>,
                                             acc: Sync<Subset>, mk: Key)
    requires Settled(env, acc.st, mk)
    ensures Settled(env, MakeSubsets(cfg, env, src, subsets, acc).st, mk)
    decreases |subsets|
  {
    if subsets != [] && acc.outcome == Done {
      hide MakeAddresses, Settled;
      var next := MakeSubset(cfg, env, src, subsets[0], acc);
      MakeAddressesSettle(cfg, env, src, subsets[0].addresses, Sync(acc.st, {}, [], Done), mk);
      MakeSubsetsSettle(cfg, env, src, subsets[1..], next, mk);
    }
  }

  /** Creating endpoints outright, ready or not, where no gateway mirror waits for them. */
  lemma CreateReadyEndpointsKept(cfg: Config, env: Env, st: State, mk: Key, ep: Endpoints)
    requires Settled(env, st, mk)
    ensures Kept(cfg, st, CreateEndpoints(env, st, mk, ep).0)
  {
    hide MirrorNamed, OfLink, HasReady, Shaped;
    var post := CreateEndpoints(env, st, mk, ep).0;
    if !st.gatewayAlive && Guarded(cfg, st) {
      forall n | ReadyAt(post, n) ensures !Exposed(cfg, post, n) {
        if n != mk { assert ReadyAt(st, n); }
      }
    }
  }

  lemma CreateHeadlessEndpointsKept(cfg: Config, env: Env, st: State, src: Source, exported: Endpoints)
    requires Settled(env, st, MirrorKey(cfg.link, src.key))
    ensures Kept(cfg, st, CreateHeadlessEndpoints(cfg, env, st, src, exported).0)
  {
    hide Good, Kept, MakeSubsets, EndpointLabels, GatewayAnnotations, MirrorKey, FqName, CreateEndpoints, DeleteService;
    hide Settled;
    var start := Sync<Subset>.Sync(st, {}, [], Done);
    var r := MakeSubsets(cfg, env, src, exported.subsets, start);
    MakeSubsetsGood(cfg, env, src, exported.subsets, start);
    GoodIsKept(cfg, st, r.st);
    var mk := MirrorKey(cfg.link, src.key);
    MakeSubsetsSettle(cfg, env, src, exported.subsets, start, mk);
    if r.outcome == Done {
      var ep := Endpoints(EndpointLabels(cfg.link, src.svc.labels),
                          GatewayAnnotations(cfg.link, FqName(cfg.link, src.key)), r.out, 0);
      CreateReadyEndpointsKept(cfg, env, r.st, mk, ep);
      var (st1, created) := CreateEndpoints(env, r.st, mk, ep);
      GoodThenKept(cfg, st, r.st, st1);
      if created != Ok {
        assert st1 == r.st by { UnchangedUnlessCreated(env, r.st, mk, ep); }
        DeleteServiceGood(cfg, env, st1, mk);
        GoodTransitive(cfg, st, st1, DeleteService(env, st1, mk).0);
        GoodIsKept(cfg, st, DeleteService(env, st1, mk).0);
      }
    }
  }

  lemma UnchangedUnlessCreated(env: Env, st: State, k: Key, ep: Endpoints)
    ensures CreateEndpoints(env, st, k, ep).1 != Ok ==> CreateEndpoints(env, st, k, ep).0 == st
  {
  }

  lemma CreateHeadlessServiceGood(cfg: Config, env: Env, st: State, src: Source, exported: Endpoints)
    ensures Good(cfg, st, CreateHeadlessService(cfg, env, st, src, exported).st)
  {
    hide Good, EnsureNamespace, CreateService, Stamp, ExportsAsHeadless, MirrorKey, MirrorLabels, Shaped, MirrorNamed;
    hide OfLink;
    SameObjectsGood(cfg, st, st);
    EnsureNamespaceGood(cfg, env, st, src.key.ns);
    var st1 := EnsureNamespace(cfg, env, st, src.key.ns).0;
    var mk := MirrorKey(cfg.link, src.key);
    var svc := NewMirror(cfg, src.key, src.svc, if ExportsAsHeadless(exported) then CLUSTER_IP_NONE else "");
    MirrorIsShaped(cfg, src.key, src.svc.labels);
    CreateServiceGood(cfg, env, st1, mk, svc);
    GoodTransitive(cfg, st, st1, CreateService(env, st1, mk, svc).0);
  }

  lemma HeadlessKept(cfg: Config, remote: Remote, env: Env, st: State, k: Key, exported: Endpoints)
    ensures Kept(cfg, st, HandleHeadless(cfg, remote, env, st, k, exported).0)
  {
    hide Good, Kept, CreateGatewayEndpoints, CreateHeadlessEndpoints, SyncHeadless, CreateHeadlessService, MirrorKey;
    SameObjectsGood(cfg, st, st);
    GoodIsKept(cfg, st, st);
    if env.ok(RemoteGetService(k)) && k in remote.services {
      var src := Source(k, remote.services[k], exported.version);
      var mk := MirrorKey(cfg.link, k);
      var made := if mk in st.services then Created(st, st.services[mk].clusterIP, Done)
                  else CreateHeadlessService(cfg, env, st, src, exported);
      CreateHeadlessServiceGood(cfg, env, st, src, exported);
      GoodIsKept(cfg, st, made.st);
      if made.outcome == Done {
        GatewayEndpointsGood(cfg, remote, env, made.st, k, src.svc);
        var st1 := CreateGatewayEndpoints(cfg, remote, env, made.st, k, src.svc).0;
        GoodTransitive(cfg, st, made.st, st1);
        GoodIsKept(cfg, st, st1);
        if mk !in made.st.endpoints && made.ip == CLUSTER_IP_NONE {
          HeadlessServicePresent(cfg, env, st, src, exported);
          CreateHeadlessEndpointsKept(cfg, env, made.st, src, exported);
          GoodThenKept(cfg, st, made.st, CreateHeadlessEndpoints(cfg, env, made.st, src, exported).0);
        }
        if mk in made.st.endpoints {
          SyncHeadlessGood(cfg, env, made.st, src, exported, made.st.endpoints[mk]);
          var st2 := SyncHeadless(cfg, env, made.st, src, exported, made.st.endpoints[mk]).0;
          GoodTransitive(cfg, st, made.st, st2);
          GoodIsKept(cfg, st, st2);
        }
      }
    }
  }

  lemma HeadlessServicePresent(cfg: Config, env: Env, st: State, src: Source, exported: Endpoints)
    ensures var made := CreateHeadlessService(cfg, env, st, src, exported);
            var mk := MirrorKey(cfg.link, src.key);
            made.ip == CLUSTER_IP_NONE ==> mk in made.st.services && made.st.services[mk].clusterIP == CLUSTER_IP_NONE
  {
    hide ExportsAsHeadless, MirrorKey, MirrorLabels, MirrorAnnotations, RemapPorts;
  }

  lemma ExportedGood(cfg: Config, remote: Remote, env: Env, st: State, k: Key, svc: Service)
    ensures Good(cfg, st, HandleExported(cfg, remote, env, st, k, svc).0)
  {
    hide Good, CreateGatewayEndpoints, MirrorKey, MirrorLabels, IsRemoteDiscovery, PutMirrorStatus, Mirrored, Failure;
    hide EnsureNamespace, CreateService, Shaped, MirrorNamed, OfLink;
    var mk := MirrorKey(cfg.link, k);
    EnsureNamespaceGood(cfg, env, st, k.ns);
    var st1 := EnsureNamespace(cfg, env, st, k.ns).0;
    MirrorIsShaped(cfg, k, svc.labels);
    CreateServiceGood(cfg, env, st1, mk, NewMirror(cfg, k, svc, ""));
    var st2 := CreateService(env, st1, mk, NewMirror(cfg, k, svc, "")).0;
    GatewayEndpointsGood(cfg, remote, env, st2, k, svc);
    var st3 := CreateGatewayEndpoints(cfg, remote, env, st2, k, svc).0;
    GoodTransitive(cfg, st, st1, st2);
    GoodTransitive(cfg, st, st2, st3);
    forall c: Condition ensures
      && Good(cfg, st, PutMirrorStatus(cfg, st, k, c)) && Good(cfg, st, PutMirrorStatus(cfg, st1, k, c))
      && Good(cfg, st, PutMirrorStatus(cfg, st2, k, c)) && Good(cfg, st, PutMirrorStatus(cfg, st3, k, c))
    {
      StatusGood(cfg, st, k, c);
      StatusGood(cfg, st1, k, c);
      StatusGood(cfg, st2, k, c);
      StatusGood(cfg, st3, k, c);
      GoodTransitive(cfg, st, st1, PutMirrorStatus(cfg, st1, k, c));
      GoodTransitive(cfg, st, st2, PutMirrorStatus(cfg, st2, k, c));
      GoodTransitive(cfg, st, st3, PutMirrorStatus(cfg, st3, k, c));
    }
  }

  lemma PutStatusAfter(cfg: Config, st: State, st1: State, k: Key, c: Condition)
    requires Good(cfg, st, st1)
    ensures Good(cfg, st, PutMirrorStatus(cfg, st1, k, c)) && Good(cfg, st, PutFederatedStatus(cfg, st1, k, c))
    ensures Good(cfg, st, DropMirrorStatus(cfg, st1, k)) && Good(cfg, st, DropFederatedStatus(cfg, st1, k))
  {
    hide Good, PutMirrorStatus, PutFederatedStatus, DropMirrorStatus, DropFederatedStatus;
    StatusGood(cfg, st1, k, c);
    GoodTransitive(cfg, st, st1, PutMirrorStatus(cfg, st1, k, c));
    GoodTransitive(cfg, st, st1, PutFederatedStatus(cfg, st1, k, c));
    GoodTransitive(cfg, st, st1, DropMirrorStatus(cfg, st1, k));
    GoodTransitive(cfg, st, st1, DropFederatedStatus(cfg, st1, k));
  }

  /** After the mode change of an update a dead gateway's mirror is not ready, unless nothing was done
      because discovery mode was asked for and there were no endpoints when the update was queued. */
  lemma UpdateModeGood(cfg: Config, remote: Remote, env: Env, st: State, ev: Event)
    requires ev.Updated?
    ensures Good(cfg, st, UpdateMode(cfg, remote, env, st, ev).0)
    ensures var (post, outcome) := UpdateMode(cfg, remote, env, st, ev);
            outcome == Done && !st.gatewayAlive ==>
              !ReadyAt(post, MirrorKey(cfg.link, ev.key)) || (IsRemoteDiscovery(cfg.link, ev.svc.labels) && post == st)
  {
    hide Good, CreateGatewayEndpoints, ResolveGateway, EndpointPorts, ByLiveness, GatewaySubsets, MirrorKey;
    hide IsRemoteDiscovery;
    hide PutMirrorStatus, Failure, UpdateEndpoints, DeleteEndpoints, ReadyAt;
    var k, svc := ev.key, ev.svc;
    var mk := MirrorKey(cfg.link, k);
    var failed := Failure(REASON_ERROR);
    SameObjectsGood(cfg, st, st);
    PutStatusAfter(cfg, st, st, k, failed);
    if IsRemoteDiscovery(cfg.link, svc.labels) {
      DeleteEndpointsGood(cfg, env, st, mk);
      PutStatusAfter(cfg, st, DeleteEndpoints(env, st, mk).0, k, failed);
    } else if ev.localEndpoints.None? {
      GatewayEndpointsGood(cfg, remote, env, st, k, svc);
      PutStatusAfter(cfg, st, CreateGatewayEndpoints(cfg, remote, env, st, k, svc).0, k, failed);
    } else {
      var addresses := ResolveGateway(cfg.link, env.lookup);
      var ports := EndpointPorts(cfg.link, svc.ports);
      if addresses.Some? && ports.Some? {
        var ep := ev.localEndpoints.value;
        var ep' := Endpoints(ep.labels, ep.annotations[GATEWAY_IDENTITY := cfg.link.gatewayIdentity],
                             GatewaySubsets(addresses.value, ports.value), ep.version);
        UpdateEndpointsGood(cfg, env, st, mk, ep');
        PutStatusAfter(cfg, st, UpdateEndpoints(env, st, mk, ByLiveness(st, ep')).0, k, failed);
      }
    }
  }

  lemma UpdatedGood(cfg: Config, remote: Remote, env: Env, st: State, ev: Event)
    requires ev.Updated? && Genuine(cfg, st, ev)
    ensures Good(cfg, st, HandleUpdated(cfg, remote, env, st, ev).st)
  {
    hide Good, UpdateMode, MirrorKey, PutMirrorStatus, Mirrored, Failure, UpdateService, UpdatedLocal, MayUpdate;
    hide Genuine, ReadyAt;
    var (st1, outcome) := UpdateMode(cfg, remote, env, st, ev);
    UpdateModeGood(cfg, remote, env, st, ev);
    if outcome == Done {
      var mk := MirrorKey(cfg.link, ev.key);
      var local := UpdatedLocal(cfg, ev);
      assert st1.gatewayAlive == st.gatewayAlive by { GoodKeepsLiveness(cfg, st, st1); }
      UpdateMayGoOn(cfg, st, st1, ev);
      UpdateServiceGood(cfg, env, st1, mk, local);
      var (st2, updated) := UpdateService(env, st1, mk, local);
      GoodTransitive(cfg, st, st1, st2);
      PutStatusAfter(cfg, st, st2, ev.key, if updated == Ok then Mirrored(mk) else Failure(REASON_ERROR));
    }
  }

  lemma UpdateMayGoOn(cfg: Config, st: State, st1: State, ev: Event)
    requires ev.Updated? && Genuine(cfg, st, ev) && st1.gatewayAlive == st.gatewayAlive
    requires !st.gatewayAlive ==>
               !ReadyAt(st1, MirrorKey(cfg.link, ev.key)) || (IsRemoteDiscovery(cfg.link, ev.svc.labels) && st1 == st)
    ensures MayUpdate(cfg, st1, MirrorKey(cfg.link, ev.key), UpdatedLocal(cfg, ev))
  {
    hide MirrorKey, MirrorLabels, MirrorAnnotations, RemapPorts, Shaped, OfLink, ReadyAt, IsRemoteDiscovery;
    MirrorIsShaped(cfg, ev.key, ev.svc.labels);
    if IsRemoteDiscovery(cfg.link, ev.svc.labels) {
      assert Discoverable(cfg.link);
    }
  }

  lemma GoodKeepsLiveness(cfg: Config, pre: State, post: State)
    requires Good(cfg, pre, post)
    ensures post.gatewayAlive == pre.gatewayAlive
  {
  }

  lemma UnexportedGood(cfg: Config, env: Env, st: State, k: Key)
    ensures Good(cfg, st, HandleUnexported(cfg, env, st, k).0)
  {
    hide Good, EndpointMirrorsOf, MirrorKey, DropMirrorStatus, Purge, DeleteService;
    StatusGood(cfg, st, k, Failure(REASON_ERROR));
    var st1 := DropMirrorStatus(cfg, st, k);
    var mk := MirrorKey(cfg.link, k);
    if mk in st1.services {
      var auxiliary := if Headless(st1.services[mk]) && env.ok(ListServices) then EndpointMirrorsOf(st1, mk.name)
                       else {};
      PurgeGood(cfg, env, st1, auxiliary);
      var st2 := Purge(env, st1, auxiliary);
      GoodTransitive(cfg, st, st1, st2);
      DeleteServiceGood(cfg, env, st2, mk);
      GoodTransitive(cfg, st, st2, DeleteService(env, st2, mk).0);
    }
  }

  lemma FederatedIsShaped(cfg: Config, fk: Key, labels: Labels)
    ensures Shaped(cfg, fk, CommonLabels(labels))
    ensures !OfLink(cfg.link, CommonLabels(labels))
  {
    FederatedOfNoLink(cfg.link, labels);
  }

  lemma CreateFederatedGood(cfg: Config, env: Env, st: State, k: Key, svc: Service)
    ensures Good(cfg, st, HandleCreateFederated(cfg, env, st, k, svc).0)
  {
    hide Good, CommonLabels, CreatedAnnotations, RemapPorts, FederatedKey, PutFederatedStatus, Mirrored, Failure;
    hide EnsureNamespace, CreateService, Shaped, MirrorNamed, OfLink;
    EnsureNamespaceGood(cfg, env, st, k.ns);
    var st1 := EnsureNamespace(cfg, env, st, k.ns).0;
    var fk := FederatedKey(k);
    var federated := Service(CommonLabels(svc.labels), CreatedAnnotations(cfg.link.cluster, k.name, svc.annotations),
                             RemapPorts(svc.ports), "", 0);
    FederatedIsShaped(cfg, fk, svc.labels);
    CreateServiceGood(cfg, env, st1, fk, federated);
    var st2 := CreateService(env, st1, fk, federated).0;
    GoodTransitive(cfg, st, st1, st2);
    SameObjectsGood(cfg, st, st);
    forall c: Condition ensures
      && Good(cfg, st, PutFederatedStatus(cfg, st, k, c)) && Good(cfg, st, PutFederatedStatus(cfg, st1, k, c))
      && Good(cfg, st, PutFederatedStatus(cfg, st2, k, c))
    {
      PutStatusAfter(cfg, st, st, k, c);
      PutStatusAfter(cfg, st, st1, k, c);
      PutStatusAfter(cfg, st, st2, k, c);
    }
  }

  /** A copy with the version of the current object agrees with it on everything that an update of the
      copy leaves alone. */
  predicate GenuineCopy(st: State, n: Key, copy: Service) {
    && copy.version < st.now
    && (n in st.services && st.services[n].version == copy.version ==>
          && st.services[n].clusterIP == copy.clusterIP
          && (REMOTE_VERSION in copy.annotations ==> REMOTE_VERSION in st.services[n].annotations))
  }

  /** Queued joins and updates carry copies of the object as it was. A join keeps its labels; an update is
      only queued for an object that records a remote version. */
  predicate Genuine(cfg: Config, st: State, ev: Event) {
    match ev
    case JoinFederated(k, local, _) =>
      var fk := FederatedKey(k);
      && GenuineCopy(st, fk, local)
      && (fk in st.services && st.services[fk].version == local.version ==> st.services[fk].labels == local.labels)
    case Updated(k, local, _, _) =>
      GenuineCopy(st, MirrorKey(cfg.link, k), local) && REMOTE_VERSION in local.annotations
    case _ => true
  }

  lemma JoinGood(cfg: Config, env: Env, st: State, ev: Event)
    requires ev.JoinFederated? && Genuine(cfg, st, ev)
    ensures ShapeOk(cfg, st) ==> Good(cfg, st, HandleJoin(cfg, env, st, ev).st)
  {
    hide Good, JoinedAnnotations, FederatedKey, PutFederatedStatus, Mirrored, Failure, Shaped, OfLink, Discoverable;
    var k := ev.key;
    SameObjectsGood(cfg, st, st);
    PutStatusAfter(cfg, st, st, k, Failure(REASON_INVALID_SERVICE));
    PutStatusAfter(cfg, st, st, k, Failure(REASON_ERROR));
    var joined := JoinedAnnotations(cfg.link.cluster, k.name, ev.local.annotations);
    if ShapeOk(cfg, st) && joined.Some? {
      var fk := FederatedKey(k);
      var local := ev.local.(annotations := joined.value);
      var (st1, updated) := UpdateService(env, st, fk, local);
      if updated == Ok {
        assert Shaped(cfg, fk, st.services[fk].labels);
        VersionStaysRecorded(cfg, k.name, ev.local.annotations);
        assert MayUpdate(cfg, st, fk, local);
        UpdateServiceGood(cfg, env, st, fk, local);
        PutStatusAfter(cfg, st, st1, k, Mirrored(fk));
      }
    }
  }

  /** Joining and leaving touch no annotation but those that list members. */
  lemma VersionStaysRecorded(cfg: Config, name: string, a: Labels)
    ensures var joined := JoinedAnnotations(cfg.link.cluster, name, a);
            joined.Some? ==> (REMOTE_VERSION in joined.value <==> REMOTE_VERSION in a)
    ensures var left := LeftAnnotations(cfg.link.cluster, name, a);
            left.Some? ==> (REMOTE_VERSION in left.value <==> REMOTE_VERSION in a)
  {
    hide Split, Join, Without;
    assert REMOTE_VERSION[1] == 'i' && REMOTE_DISCOVERY[1] == 'u' && LOCAL_DISCOVERY[1] == 'u';
  }

  lemma LeaveGood(cfg: Config, env: Env, st: State, k: Key)
    ensures ShapeOk(cfg, st) ==> Good(cfg, st, HandleLeave(cfg, env, st, k).0)
  {
    hide Good, LeftAnnotations, NoMembers, FederatedKey, DropFederatedStatus, DeleteService, UpdateService, Shaped;
    hide OfLink, ReadyAt;
    hide Headless, Discoverable;
    StatusGood(cfg, st, k, Failure(REASON_ERROR));
    var st1 := DropFederatedStatus(cfg, st, k);
    var fk := FederatedKey(k);
    if ShapeOk(cfg, st) && fk in st1.services {
      ShapeAfterGood(cfg, st, st1);
      var left := LeftAnnotations(cfg.link.cluster, k.name, st1.services[fk].annotations);
      if left.Some? {
        DeleteServiceGood(cfg, env, st1, fk);
        var st2 := DeleteService(env, st1, fk).0;
        GoodTransitive(cfg, st, st1, st2);
        PutStatusAfter(cfg, st, st2, k, Failure(REASON_ERROR));
        var local := st1.services[fk].(annotations := left.value);
        assert MayUpdate(cfg, st1, fk, local) by {
          assert Shaped(cfg, fk, st1.services[fk].labels);
          VersionStaysRecorded(cfg, k.name, st1.services[fk].annotations);
          SameMatter(cfg, st1.services[fk], left.value);
        }
        UpdateServiceGood(cfg, env, st1, fk, local);
        GoodTransitive(cfg, st, st1, UpdateService(env, st1, fk, local).0);
      }
    }
  }

  lemma SameMatter(cfg: Config, svc: Service, a: Labels)
    requires REMOTE_VERSION in a <==> REMOTE_VERSION in svc.annotations
    ensures Matters(cfg, svc.(annotations := a)) <==> Matters(cfg, svc)
  {
    hide OfLink, Discoverable;
  }

  lemma ShapeAfterGood(cfg: Config, pre: State, post: State)
    requires Good(cfg, pre, post) && ShapeOk(cfg, pre)
    ensures ShapeOk(cfg, post)
  {
  }

  lemma GcGood(cfg: Config, remote: Remote, env: Env, st: State)
    ensures Good(cfg, st, HandleGc(cfg, remote, env, st).0)
  {
    hide Good, Purge, LinkServices, Orphans, OriginOf;
    SameObjectsGood(cfg, st, st);
    PurgeGood(cfg, env, st, Orphans(cfg, remote, env, st));
  }

  lemma CleanupGood(cfg: Config, env: Env, st: State)
    ensures Good(cfg, st, HandleCleanup(cfg, env, st).0)
  {
    hide Good, Purge, PurgeEndpoints, LinkServices, LinkEndpoints;
    SameObjectsGood(cfg, st, st);
    PurgeGood(cfg, env, st, LinkServices(cfg, st));
    var st1 := Purge(env, st, LinkServices(cfg, st));
    PurgeEndpointsGood(cfg, env, st1, LinkEndpoints(cfg, st1));
    GoodTransitive(cfg, st, st1, PurgeEndpoints(env, st1, LinkEndpoints(cfg, st1)));
  }

  lemma PlainEndpointsGood(cfg: Config, remote: Remote, env: Env, st: State, k: Key, ep: Endpoints)
    requires !(IsHeadlessEndpoints(ep) && cfg.headlessEnabled)
    ensures Good(cfg, st, HandleEndpoints(cfg, remote, env, st, k, ep).0)
  {
    hide Good, HandleHeadless, MirrorKey, ResolveGateway, EndpointPorts, GatewaySubsets, ByLiveness, HasReady;
    hide UpdateEndpoints;
    SameObjectsGood(cfg, st, st);
    var mk := MirrorKey(cfg.link, k);
    if mk in st.endpoints {
      forall subsets: seq<Subset> ensures Good(cfg, st, WriteSubsets(env, st, mk, subsets).0) {
        UpdateEndpointsGood(cfg, env, st, mk, st.endpoints[mk].(subsets := subsets));
      }
    }
  }

  lemma DecisionGood(cfg: Config, env: Env, st: State, ev: Event)
    requires ev.OnAdd? || ev.OnUpdate?
    ensures Good(cfg, st, CreateOrUpdate(cfg, env, st, ev).st)
  {
    hide Good, MirrorDecision, FederatedKey, IsFederatedMember, PutFederatedStatus, Failure;
    SameObjectsGood(cfg, st, st);
    PutStatusAfter(cfg, st, st, ev.key, Failure(REASON_ERROR));
  }

  predicate HeadlessEvent(cfg: Config, ev: Event) {
    (ev.OnAddEndpoints? || ev.OnUpdateEndpoints?) && cfg.headlessEnabled && IsHeadlessEndpoints(ev.ep)
  }

  /** Whatever calls fail, every event other than a repair or a headless endpoints event keeps the shape of
      the link's services, and while the gateway is dead it neither exposes a service of the link nor
      leaves endpoints behind that a later event could expose. */
  lemma HandleGood(cfg: Config, remote: Remote, env: Env, st: State, ev: Event)
    requires !ev.RepairEndpoints? && !HeadlessEvent(cfg, ev) && Genuine(cfg, st, ev) && ShapeOk(cfg, st)
    ensures Good(cfg, st, Handle(cfg, remote, env, st, ev).st)
  {
    hide Good, CreateOrUpdate, HandleEndpoints, HandleExported, HandleUpdated, HandleUnexported, IsHeadlessEndpoints;
    hide HandleCreateFederated, HandleJoin, HandleLeave, HandleCleanup, HandleGc, Genuine, ShapeOk;
    match ev {
      case OnAdd(_, _) => DecisionGood(cfg, env, st, ev);
      case OnUpdate(_, _) => DecisionGood(cfg, env, st, ev);
      case OnDelete(_, _) => SameObjectsGood(cfg, st, st);
      case OnAddEndpoints(k, ep) => PlainEndpointsGood(cfg, remote, env, st, k, ep);
      case OnUpdateEndpoints(k, ep) => PlainEndpointsGood(cfg, remote, env, st, k, ep);
      case Exported(k, svc) => ExportedGood(cfg, remote, env, st, k, svc);
      case Updated(_, _, _, _) => UpdatedGood(cfg, remote, env, st, ev);
      case Unexported(k) => UnexportedGood(cfg, env, st, k);
      case CreateFederated(k, svc) => CreateFederatedGood(cfg, env, st, k, svc);
      case JoinFederated(_, _, _) => JoinGood(cfg, env, st, ev);
      case LeaveFederated(k) => LeaveGood(cfg, env, st, k);
      case ClusterUnregistered => CleanupGood(cfg, env, st);
      case GcTriggered => GcGood(cfg, remote, env, st);
      case NamespaceAdded(_) => SameObjectsGood(cfg, st, st);
    }
  }

  /** Every event other than a repair, headless endpoints events included, exposes no service of a dead
      gateway unless orphaned endpoints were there before. */
  lemma HandleKept(cfg: Config, remote: Remote, env: Env, st: State, ev: Event)
    requires !ev.RepairEndpoints? && Genuine(cfg, st, ev) && ShapeOk(cfg, st)
    ensures Kept(cfg, st, Handle(cfg, remote, env, st, ev).st)
  {
    hide Good, Kept, Handle, HandleHeadless, Genuine, ShapeOk, IsHeadlessEndpoints;
    if HeadlessEvent(cfg, ev) {
      HeadlessEventIsHandled(cfg, remote, env, st, ev);
      HeadlessKept(cfg, remote, env, st, ev.key, ev.ep);
    } else {
      HandleGood(cfg, remote, env, st, ev);
      GoodIsKept(cfg, st, Handle(cfg, remote, env, st, ev).st);
    }
  }

  lemma HeadlessEventIsHandled(cfg: Config, remote: Remote, env: Env, st: State, ev: Event)
    requires HeadlessEvent(cfg, ev)
    ensures Handle(cfg, remote, env, st, ev).st == HandleHeadless(cfg, remote, env, st, ev.key, ev.ep).0
  {
    hide HandleHeadless;
  }
}
