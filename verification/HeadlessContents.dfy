/** What the headless handler writes for a new mirror: its service, the endpoint mirrors of the named addresses, and
    endpoints that lead to those. */
module HeadlessContents {
  import opened Strings
  import opened Kubernetes
  import opened Mirror
  import opened Api
  import opened HeadlessMirror
  import opened Handlers
  import opened Crashes
  import opened Contents
  import HeadlessOrphans

  type State = Api.State

  /* ---------- one endpoint mirror ---------- */

  /** The labels of an endpoint mirror and of its endpoints: those of the mirror, and whose endpoint mirror it is. */
  lemma EndpointMirrorLabelled(cfg: Config, src: Source, key: string)
    ensures Lookup(EndpointMirrorLabels(cfg, src), key) ==
              if key == HEADLESS_NAME then Some(src.key.name + "-" + cfg.link.cluster)
              else Lookup(MirrorLabels(cfg.link, src.key, src.svc.labels), key)
  {
    hide MirrorLabels;
  }

  /** The name of an address behind a headless service. */
  function HostFqName(cfg: Config, src: Source, host: string): string {
    host + "." + src.key.name + "." + src.key.ns + ".svc." + cfg.link.domain
  }

  /** What the creation of an endpoint mirror leaves when it comes through: the service, new with a cluster IP of its
      own or as it was, and endpoints that point at the gateway. */
  lemma EndpointMirrorWritten(cfg: Config, env: Env, st: State, src: Source, host: string)
    requires CreateEndpointMirror(cfg, env, st, src, host).outcome == Done
    ensures var made := CreateEndpointMirror(cfg, env, st, src, host);
            var hk := Key(src.key.ns, host + "-" + cfg.link.cluster);
            && hk in made.st.services && hk !in st.endpoints && hk in made.st.endpoints
            && (if hk in st.services then made.st.services == st.services && made.ip == ""
                else
                  && made.st.services == st.services[hk := made.st.services[hk]]
                  && made.st.services[hk].labels == EndpointMirrorLabels(cfg, src)
                  && made.st.services[hk].annotations
                       == map[REMOTE_FQ_NAME := HostFqName(cfg, src, host), REMOTE_VERSION := FormatNat(src.version)]
                  && made.st.services[hk].ports == RemapPorts(src.svc.ports)
                  && made.st.services[hk].clusterIP == env.assignIP(hk) && made.ip == env.assignIP(hk))
            && made.st.endpoints == st.endpoints[hk := made.st.endpoints[hk]]
            && made.st.endpoints[hk].labels == EndpointMirrorLabels(cfg, src)
            && Annotated(cfg.link, HostFqName(cfg, src, host), made.st.endpoints[hk].annotations)
            && PointsAtGateway(cfg, env, st.gatewayAlive, src.svc.ports, made.st.endpoints[hk].subsets)
  {
    hide ResolveGateway, EndpointPorts, EndpointMirrorLabels, RemapPorts, FormatNat, GatewayAnnotations, Readiness;
    hide PointsAtGateway, Annotated, GatewaySubsets;
    SameFqName(cfg, src, host);
    GatewayAnnotated(cfg.link, HostFqName(cfg, src, host));
    SubsetsPointAtGateway(cfg, env, st, src.svc.ports);
    assert |""| != |CLUSTER_IP_NONE|;
    AnnotationKeysDiffer();
    assert HostKey(cfg, src, host) == Key(src.key.ns, host + "-" + cfg.link.cluster);
  }

  /** How the creation of an endpoint mirror ends. One whose endpoints are not made is rolled back, also if it was there
      before. */
  lemma EndpointMirrorOutcomes(cfg: Config, env: Env, st: State, src: Source, host: string)
    ensures var made := CreateEndpointMirror(cfg, env, st, src, host);
            var hk := Key(src.key.ns, host + "-" + cfg.link.cluster);
            var ported := exists number :: HasGatewayPort(cfg.link, number);
            var stands := Answers(cfg, env) && ported && env.ok(CreateServiceCall(hk)) && hk.ns in st.namespaces;
            && (made.outcome == Done <==> stands && env.ok(CreateEndpointsCall(hk)) && hk !in st.endpoints)
            && (made.outcome == Fail <==> Answers(cfg, env) && !ported)
            && made.outcome != Crash
            && (!stands ==> made.st == st && made.ip == "")
            && (stands && made.outcome == Retry ==>
                  (hk in made.st.services <==> !env.ok(DeleteServiceCall(hk)))
                  && forall n :: n != hk ==> (n in made.st.services <==> n in st.services))
  {
    hide GatewaySubsets, ResolveGateway, EndpointPorts, NewEndpointMirror, NewEndpointMirrorEndpoints, ByLiveness;
    hide Stamp, Answered, Resolution, SentTo;
    ResolveGatewayIsExact(cfg.link, env.lookup);
    EndpointPortsAreExact(cfg.link, src.svc.ports);
    assert HostKey(cfg, src, host) == Key(src.key.ns, host + "-" + cfg.link.cluster);
  }

  lemma SameFqName(cfg: Config, src: Source, host: string)
    ensures EndpointMirrorFqName(cfg, src, host) == HostFqName(cfg, src, host)
  {
    var a, b, c, d := host + ".", src.key.name + ".", src.key.ns + ".svc.", cfg.link.domain;
    assert EndpointMirrorFqName(cfg, src, host) == a + (b + c + d);
    assert HostFqName(cfg, src, host) == a + b + c + d;
  }

  /* ---------- the mirror service ---------- */

  /** A new mirror of a headless service is headless exactly if some address is named. Without subsets, or a namespace,
      none is made, and one that came up meanwhile is an error. */
  lemma HeadlessServiceWritten(cfg: Config, env: Env, st: State, src: Source, exported: Endpoints)
    requires ValidEnv(env)
    ensures var made := CreateHeadlessService(cfg, env, st, src, exported); var mk := MirrorKey(cfg.link, src.key);
            var tried := exported.subsets != [] && HasNamespace(cfg, env, st, src.key.ns);
            && (made.outcome == Done <==>
                  || exported.subsets == [] || LacksNamespace(cfg, env, st, src.key.ns)
                  || (tried && env.ok(CreateServiceCall(mk)) && mk !in st.services))
            && (made.outcome == Fail <==> tried && env.ok(CreateServiceCall(mk)) && mk in st.services)
            && made.outcome != Crash && made.st.endpoints == st.endpoints
            && (if made.outcome == Done && tried then
                  && mk in made.st.services && made.st.services == st.services[mk := made.st.services[mk]]
                  && made.st.services[mk].labels == MirrorLabels(cfg.link, src.key, src.svc.labels)
                  && made.st.services[mk].annotations == MirrorAnnotations(cfg.link, src.key, src.svc)
                  && made.st.services[mk].ports == RemapPorts(src.svc.ports)
                  && made.ip == made.st.services[mk].clusterIP
                  && (made.ip == "None" <==> SomeNamed(exported))
                  && (made.ip != "None" ==> made.ip == env.assignIP(mk))
                else made.st.services == st.services && made.ip == "")
  {
    hide MirrorKey, MirrorLabels, MirrorAnnotations, RemapPorts, ExportsAsHeadless, SomeNamed;
    hide EnsureNamespace, HasNamespace, LacksNamespace;
    NamespaceIsEnsured(cfg, env, st, src.key.ns);
    SomeNamedMeans(exported);
    assert MirrorKey(cfg.link, src.key).ns == src.key.ns by { SameNamespace(cfg, src.key); }
    assert |""| != |CLUSTER_IP_NONE|;
  }

  /** Some address, ready or not, has a hostname. */
  ghost predicate SomeNamed(ep: Endpoints) {
    exists s, a :: s in ep.subsets && a in s.addresses + s.notReady && a.hostname != ""
  }

  lemma SomeNamedMeans(ep: Endpoints)
    ensures SomeNamed(ep) <==> ExportsAsHeadless(ep)
  {
    if ExportsAsHeadless(ep) {
      var i :| 0 <= i < |ep.subsets| &&
        ((exists j :: 0 <= j < |ep.subsets[i].addresses| && Named(ep.subsets[i].addresses[j])) ||
         (exists j :: 0 <= j < |ep.subsets[i].notReady| && Named(ep.subsets[i].notReady[j])));
      var s := ep.subsets[i];
      if j :| 0 <= j < |s.addresses| && Named(s.addresses[j]) {
        assert s.addresses[j] in s.addresses + s.notReady;
      } else {
        var j :| 0 <= j < |s.notReady| && Named(s.notReady[j]);
        assert s.notReady[j] in s.addresses + s.notReady;
      }
    }
    if SomeNamed(ep) {
      var s, a :| s in ep.subsets && a in s.addresses + s.notReady && a.hostname != "";
      var i :| 0 <= i < |ep.subsets| && ep.subsets[i] == s;
      if a in s.addresses {
        var j :| 0 <= j < |s.addresses| && s.addresses[j] == a;
        assert Named(s.addresses[j]);
      } else {
        var j :| 0 <= j < |s.notReady| && s.notReady[j] == a;
        assert Named(s.notReady[j]);
      }
    }
  }

  /* ---------- the endpoints of a new headless mirror ---------- */

  /** The store before the first address: its namespaces and the keys of its endpoints and services. */
  datatype Before = Before(namespaces: set<string>, endpoints: set<Key>, services: set<Key>)

  function Snapshot(st: State): Before {
    Before(st.namespaces, st.endpoints.Keys, st.services.Keys)
  }

  /** The address that a named one leads to: the cluster IP of the endpoint mirror made for it, or none if that service
      was there already, under the name of its pod. Nothing if no endpoint mirror is made. */
  function Led(cfg: Config, env: Env, before: Before, src: Source, earlier: seq<Address>, a: Address): seq<Address> {
    var hk, n := HostKey(cfg, src, a.hostname), Bearing(earlier, a.hostname);
    if Named(a) && a.targetRef.Some? && MadeAfter(cfg, env, before.namespaces, before.endpoints, src, a.hostname, n)
    then
      [Address(if n == 0 && hk in before.services then "" else env.assignIP(hk), a.targetRef.value, None)]
    else []
  }

  /** The addresses in order, those left out for which nothing is made. */
  function LedAll(cfg: Config, env: Env, before: Before, src: Source, earlier: seq<Address>,
                  addresses: seq<Address>): seq<Address>
    decreases |addresses|
  {
    if addresses == [] then []
    else Led(cfg, env, before, src, earlier, addresses[0])
         + LedAll(cfg, env, before, src, earlier + [addresses[0]], addresses[1..])
  }

  /** The exported subsets in order with their ports, those left out that end up empty. */
  function LedSubsets(cfg: Config, env: Env, before: Before, src: Source, earlier: seq<Address>,
                      subsets: seq<Subset>): seq<Subset>
    decreases |subsets|
  {
    if subsets == [] then []
    else
      var led := LedAll(cfg, env, before, src, earlier, subsets[0].addresses);
      (if led == [] then [] else [Subset(led, [], subsets[0].ports)])
      + LedSubsets(cfg, env, before, src, earlier + subsets[0].addresses, subsets[1..])
  }

  /** A service whose endpoint mirror is made is missing, unless it was there before the first of its name. */
  ghost predicate SeenServices(cfg: Config, env: Env, before: Before, src: Source, earlier: seq<Address>, st: State) {
    && SeenAfter(cfg, env, before.namespaces, before.endpoints, src, earlier, st)
    && forall host :: ServiceSeen(cfg, env, before, src, earlier, st, host)
  }

  predicate ServiceSeen(cfg: Config, env: Env, before: Before, src: Source, earlier: seq<Address>, st: State,
                        host: string) {
    var hk, n := HostKey(cfg, src, host), Bearing(earlier, host);
    && (n == 0 ==> (hk in st.services <==> hk in before.services))
    && (n > 0 && MadeAfter(cfg, env, before.namespaces, before.endpoints, src, host, n) ==> hk !in st.services)
  }

  /** An address that leaves the way free for the next of its name has taken the service away. */
  lemma FreedForNext(cfg: Config, env: Env, st: State, src: Source, host: string)
    requires MadeAfter(cfg, env, st.namespaces, CreateEndpointMirror(cfg, env, st, src, host).st.endpoints.Keys, src,
                       host, 0)
    ensures HostKey(cfg, src, host) !in CreateEndpointMirror(cfg, env, st, src, host).st.services
  {
    hide HostKey, ResolveGateway, EndpointPorts, NewEndpointMirror, NewEndpointMirrorEndpoints, ByLiveness, Stamp;
    HostNamespace(cfg, src, host);
  }

  lemma HostNamespace(cfg: Config, src: Source, host: string)
    ensures HostKey(cfg, src, host).ns == src.key.ns
  {
  }

  lemma NextServiceSeen(cfg: Config, env: Env, before: Before, src: Source, earlier: seq<Address>, st: State,
                        a: Address, host: string)
    requires SeenServices(cfg, env, before, src, earlier, st)
    ensures var post := if Named(a) then CreateEndpointMirror(cfg, env, st, src, a.hostname).st else st;
            ServiceSeen(cfg, env, before, src, earlier + [a], post, host)
  {
    hide CreateEndpointMirror, MadeAfter, SeenAfter, Bearing, Named, HostKey;
    BearingNext(earlier, a, host);
    assert ServiceSeen(cfg, env, before, src, earlier, st, host);
    var hk := HostKey(cfg, src, host);
    if Named(a) {
      var post := CreateEndpointMirror(cfg, env, st, src, a.hostname).st;
      if a.hostname == host {
        SeenNext(cfg, env, before.namespaces, before.endpoints, src, earlier, st, a);
        SeenAt(cfg, env, before.namespaces, before.endpoints, src, earlier + [a], post, host, 0);
        SeenNamespaces(cfg, env, before, src, earlier, st);
        if MadeAfter(cfg, env, before.namespaces, post.endpoints.Keys, src, host, 0) {
          FreedForNext(cfg, env, st, src, host);
        }
      } else {
        HostKeysDiffer(cfg, src, a.hostname, host);
        MakingElsewhere(cfg, env, st, src, a.hostname, hk);
      }
    }
  }

  lemma SeenNamespaces(cfg: Config, env: Env, before: Before, src: Source, earlier: seq<Address>, st: State)
    requires SeenAfter(cfg, env, before.namespaces, before.endpoints, src, earlier, st)
    ensures st.namespaces == before.namespaces
  {
    hide MadeAfter, Bearing;
  }

  lemma OneLed(cfg: Config, env: Env, before: Before, src: Source, earlier: seq<Address>, a: Address,
               acc: Sync<Address>)
    requires SeenServices(cfg, env, before, src, earlier, acc.st) && acc.outcome == Done
    requires MakeAddress(cfg, env, src, a, acc).outcome == Done
    ensures var r := MakeAddress(cfg, env, src, a, acc);
            && r.out == acc.out + Led(cfg, env, before, src, earlier, a)
            && SeenServices(cfg, env, before, src, earlier + [a], r.st)
  {
    hide CreateEndpointMirror, MadeAfter, SeenAfter, Bearing, HostKey, ServiceSeen;
    var r := MakeAddress(cfg, env, src, a, acc);
    SeenNext(cfg, env, before.namespaces, before.endpoints, src, earlier, acc.st, a);
    forall host ensures ServiceSeen(cfg, env, before, src, earlier + [a], r.st, host) {
      NextServiceSeen(cfg, env, before, src, earlier, acc.st, a, host);
    }
    if Named(a) {
      LedIP(cfg, env, before, src, earlier, acc.st, a);
    }
  }

  lemma LedIP(cfg: Config, env: Env, before: Before, src: Source, earlier: seq<Address>, st: State, a: Address)
    requires SeenServices(cfg, env, before, src, earlier, st)
    ensures var made := CreateEndpointMirror(cfg, env, st, src, a.hostname);
            var hk, n := HostKey(cfg, src, a.hostname), Bearing(earlier, a.hostname);
            made.outcome == Done ==> made.ip == if n == 0 && hk in before.services then "" else env.assignIP(hk)
  {
    hide CreateEndpointMirror, MadeAfter, SeenAfter, Bearing, PointsAtGateway, Annotated, EndpointMirrorLabels;
    hide FormatNat, RemapPorts, HostFqName;
    if CreateEndpointMirror(cfg, env, st, src, a.hostname).outcome == Done {
      EndpointMirrorWritten(cfg, env, st, src, a.hostname);
      SeenNext(cfg, env, before.namespaces, before.endpoints, src, earlier, st, a);
      assert ServiceSeen(cfg, env, before, src, earlier, st, a.hostname);
    }
  }

  lemma {:induction false} AddressesLed(cfg: Config, env: Env, before: Before, src: Source, earlier: seq<Address>,
                                        addresses: seq<Address>, acc: Sync<Address>)
    requires SeenServices(cfg, env, before, src, earlier, acc.st) && acc.outcome == Done
    requires MakeAddresses(cfg, env, src, addresses, acc).outcome == Done
    ensures var r := MakeAddresses(cfg, env, src, addresses, acc);
            && r.out == acc.out + LedAll(cfg, env, before, src, earlier, addresses)
            && SeenServices(cfg, env, before, src, earlier + addresses, r.st)
    decreases |addresses|
  {
    hide MakeAddress, SeenServices, Led;
    if addresses == [] {
      assert earlier + addresses == earlier;
    } else {
      var a, next := addresses[0], MakeAddress(cfg, env, src, addresses[0], acc);
      HeadlessOrphans.StoppedStays(cfg, env, src, addresses[1..], next);
      OneLed(cfg, env, before, src, earlier, a, acc);
      AddressesLed(cfg, env, before, src, earlier + [a], addresses[1..], next);
      assert earlier + [a] + addresses[1..] == earlier + addresses;
    }
  }

  lemma {:induction false} SubsetsLed(cfg: Config, env: Env, before: Before, src: Source, earlier: seq<Address>,
                                      subsets: seq<Subset>, acc: Sync<Subset>)
    requires SeenServices(cfg, env, before, src, earlier, acc.st) && acc.outcome == Done
    requires MakeSubsets(cfg, env, src, subsets, acc).outcome == Done
    ensures var r := MakeSubsets(cfg, env, src, subsets, acc);
            r.out == acc.out + LedSubsets(cfg, env, before, src, earlier, subsets)
    decreases |subsets|
  {
    hide MakeAddresses, SeenServices, LedAll;
    if subsets != [] {
      var s, next := subsets[0], MakeSubset(cfg, env, src, subsets[0], acc);
      HeadlessOrphans.StoppedSubsetStays(cfg, env, src, subsets[1..], next);
      AddressesLed(cfg, env, before, src, earlier, s.addresses, Sync(acc.st, {}, [], Done));
      var led := LedAll(cfg, env, before, src, earlier, s.addresses);
      assert [] + led == led;
      var own := if led == [] then [] else [Subset(led, [], s.ports)];
      assert next.out == acc.out + own;
      var rest := LedSubsets(cfg, env, before, src, earlier + s.addresses, subsets[1..]);
      assert acc.out + own + rest == acc.out + (own + rest);
      SubsetsLed(cfg, env, before, src, earlier + s.addresses, subsets[1..], next);
    }
  }

  lemma NothingSeen(cfg: Config, env: Env, st: State, src: Source)
    ensures SeenServices(cfg, env, Snapshot(st), src, [], st)
  {
    hide MadeAfter;
  }

  /** The endpoints of a new headless mirror: the exported subsets through the endpoint mirrors that were made, ready
      whatever the gateway's liveness. */
  ghost predicate LeadsOn(cfg: Config, env: Env, before: Before, src: Source, exported: Endpoints, ep: Endpoints) {
    && ep.subsets == LedSubsets(cfg, env, before, src, [], exported.subsets)
    && ep.labels == EndpointLabels(cfg.link, src.svc.labels)
    && Annotated(cfg.link, src.key.name + "." + src.key.ns + ".svc." + cfg.link.domain, ep.annotations)
  }

  lemma HeadlessEndpointsWritten(cfg: Config, env: Env, st: State, src: Source, exported: Endpoints)
    requires CreateHeadlessEndpoints(cfg, env, st, src, exported).1 == Done
    ensures var post := CreateHeadlessEndpoints(cfg, env, st, src, exported).0; var mk := MirrorKey(cfg.link, src.key);
            mk in post.endpoints && LeadsOn(cfg, env, Snapshot(st), src, exported, post.endpoints[mk])
  {
    hide MakeSubsets, MirrorKey, EndpointLabels, GatewayAnnotations, Annotated, LedSubsets, SeenServices;
    NothingSeen(cfg, env, st, src);
    SubsetsLed(cfg, env, Snapshot(st), src, [], exported.subsets, Sync(st, {}, [], Done));
    GatewayAnnotated(cfg.link, FqName(cfg.link, src.key));
  }

  /** A first endpoints event of a headless service, when it comes through: its mirror, made first if missing, has the
      exported subsets through the endpoint mirrors that were made. */
  lemma NewHeadlessMirror(cfg: Config, remote: Remote, env: Env, st: State, k: Key, exported: Endpoints)
    requires ValidEnv(env) && CreatesEndpoints(cfg, remote, env, st, k)
    requires MirrorKey(cfg.link, k) !in st.services ==>
               SomeNamed(exported) && env.ok(CreateServiceCall(MirrorKey(cfg.link, k)))
    requires HandleHeadless(cfg, remote, env, st, k, exported).1 == Done
    ensures var post := HandleHeadless(cfg, remote, env, st, k, exported).0; var mk := MirrorKey(cfg.link, k);
            var before := Before(EnsuredNamespaces(cfg, env, st, k), st.endpoints.Keys, st.services.Keys + {mk});
            && mk in post.endpoints
            && LeadsOn(cfg, env, before, Source(k, remote.services[k], exported.version), exported, post.endpoints[mk])
  {
    hide MirrorKey, CreateHeadlessService, CreateHeadlessEndpoints, SyncHeadless, CreateGatewayEndpoints, LeadsOn;
    hide SomeNamed, MirrorLabels, MirrorAnnotations, RemapPorts, EnsureNamespace, HasNamespace, LacksNamespace;
    var mk := MirrorKey(cfg.link, k);
    var src := Source(k, remote.services[k], exported.version);
    NamespaceIsEnsured(cfg, env, st, k.ns);
    HeadlessServiceWritten(cfg, env, st, src, exported);
    NamedHasSubsets(exported);
    var made := if mk in st.services then Created(st, st.services[mk].clusterIP, Done)
                else CreateHeadlessService(cfg, env, st, src, exported);
    if mk !in st.services { MadeNamespaces(cfg, env, st, src, exported); }
    HeadlessEndpointsWritten(cfg, env, made.st, src, exported);
    assert made.st.services.Keys == st.services.Keys + {mk};
  }

  lemma NamedHasSubsets(ep: Endpoints)
    ensures SomeNamed(ep) ==> ep.subsets != []
  {
  }

  lemma MadeNamespaces(cfg: Config, env: Env, st: State, src: Source, exported: Endpoints)
    requires exported.subsets != []
    ensures CreateHeadlessService(cfg, env, st, src, exported).st.namespaces
         == EnsureNamespace(cfg, env, st, src.key.ns).0.namespaces
  {
    hide EnsureNamespace, MirrorKey, NewMirror, ExportsAsHeadless;
  }

  /* ---------- where those addresses lead ---------- */

  predicate SameHost(pre: State, post: State, n: Key) {
    && (n in post.services <==> n in pre.services) && (n in pre.services ==> post.services[n] == pre.services[n])
    && (n in post.endpoints <==> n in pre.endpoints) && post.namespaces == pre.namespaces
  }

  lemma MadeForOthers(cfg: Config, env: Env, st: State, src: Source, host: string, n: Key)
    requires n != HostKey(cfg, src, host)
    ensures SameHost(st, CreateEndpointMirror(cfg, env, st, src, host).st, n)
  {
    hide ResolveGateway, EndpointPorts, NewEndpointMirror, NewEndpointMirrorEndpoints, ByLiveness, HostKey;
    hide CreateService, CreateEndpoints, DeleteService;
    var k, svc := HostKey(cfg, src, host), NewEndpointMirror(cfg, src, host);
    CallsForOthers(env, st, k, n);
    CallsForOthers(env, CreateService(env, st, k, svc).0, k, n);
    forall ep {
      CallsForOthers(env, CreateEndpoints(env, CreateService(env, st, k, svc).0, k, ep).0, k, n);
    }
  }

  lemma CallsForOthers(env: Env, st: State, k: Key, n: Key)
    requires n != k
    ensures forall svc :: SameHost(st, CreateService(env, st, k, svc).0, n)
    ensures forall ep :: SameHost(st, CreateEndpoints(env, st, k, ep).0, n)
    ensures SameHost(st, DeleteService(env, st, k).0, n)
  {
    hide Stamp;
  }

  lemma {:induction false} AddressesOfOthers(cfg: Config, env: Env, src: Source, addresses: seq<Address>,
                                             acc: Sync<Address>, host: string)
    requires Bearing(addresses, host) == 0
    ensures SameHost(acc.st, MakeAddresses(cfg, env, src, addresses, acc).st, HostKey(cfg, src, host))
    decreases |addresses|
  {
    hide CreateEndpointMirror, HostKey;
    if addresses != [] && acc.outcome == Done {
      var a := addresses[0];
      if Named(a) {
        HostKeysDiffer(cfg, src, a.hostname, host);
        MadeForOthers(cfg, env, acc.st, src, a.hostname, HostKey(cfg, src, host));
      }
      AddressesOfOthers(cfg, env, src, addresses[1..], MakeAddress(cfg, env, src, a, acc), host);
    }
  }

  lemma {:induction false} SubsetsOfOthers(cfg: Config, env: Env, src: Source, subsets: seq<Subset>, acc: Sync<Subset>,
                                           host: string)
    requires Bearing(ReadyAddresses(subsets), host) == 0
    ensures SameHost(acc.st, MakeSubsets(cfg, env, src, subsets, acc).st, HostKey(cfg, src, host))
    decreases |subsets|
  {
    hide MakeAddresses, HostKey;
    if subsets != [] && acc.outcome == Done {
      BearingAppends(subsets[0].addresses, ReadyAddresses(subsets[1..]), host);
      AddressesOfOthers(cfg, env, src, subsets[0].addresses, Sync(acc.st, {}, [], Done), host);
      SubsetsOfOthers(cfg, env, src, subsets[1..], MakeSubset(cfg, env, src, subsets[0], acc), host);
    }
  }

  /** The hostname is new, and its endpoint mirror can be made. */
  predicate NewHost(cfg: Config, env: Env, st: State, src: Source, host: string) {
    var hk := HostKey(cfg, src, host);
    hk !in st.services && MadeAfter(cfg, env, st.namespaces, st.endpoints.Keys, src, host, 0)
    && hk !in st.endpoints
  }

  /** The endpoint mirror of the hostname stands, with the cluster IP it was given. */
  predicate Stands(cfg: Config, env: Env, st: State, src: Source, host: string) {
    var hk := HostKey(cfg, src, host);
    hk in st.services && st.services[hk].clusterIP == env.assignIP(hk)
    && st.services[hk].labels == EndpointMirrorLabels(cfg, src)
  }

  lemma NewHostStays(cfg: Config, env: Env, pre: State, post: State, src: Source, host: string)
    requires SameHost(pre, post, HostKey(cfg, src, host))
    ensures NewHost(cfg, env, pre, src, host) ==> NewHost(cfg, env, post, src, host)
    ensures Stands(cfg, env, pre, src, host) ==> Stands(cfg, env, post, src, host)
  {
    hide HostKey, ResolveGateway, EndpointPorts, EndpointMirrorLabels;
  }

  lemma NewHostStands(cfg: Config, env: Env, st: State, src: Source, host: string)
    requires NewHost(cfg, env, st, src, host)
    ensures Stands(cfg, env, CreateEndpointMirror(cfg, env, st, src, host).st, src, host)
  {
    hide CreateEndpointMirror, MadeAfter, EndpointMirrorLabels, PointsAtGateway, Annotated, FormatNat, RemapPorts;
    hide HostFqName;
    MadeAtOnce(cfg, env, st, src, host);
    EndpointMirrorWritten(cfg, env, st, src, host);
  }

  lemma {:induction false} AddressesStand(cfg: Config, env: Env, src: Source, addresses: seq<Address>,
                                          acc: Sync<Address>, host: string)
    requires Bearing(addresses, host) == 1 && NewHost(cfg, env, acc.st, src, host) && acc.outcome == Done
    requires MakeAddresses(cfg, env, src, addresses, acc).outcome == Done
    ensures Stands(cfg, env, MakeAddresses(cfg, env, src, addresses, acc).st, src, host)
    decreases |addresses|
  {
    hide CreateEndpointMirror, HostKey, NewHost, Stands;
    var a := addresses[0];
    var next := MakeAddress(cfg, env, src, a, acc);
    var r := MakeAddresses(cfg, env, src, addresses, acc);
    HeadlessOrphans.StoppedStays(cfg, env, src, addresses[1..], next);
    if Named(a) && a.hostname == host {
      NewHostStands(cfg, env, acc.st, src, host);
      AddressesOfOthers(cfg, env, src, addresses[1..], next, host);
      NewHostStays(cfg, env, next.st, r.st, src, host);
    } else {
      if Named(a) {
        HostKeysDiffer(cfg, src, a.hostname, host);
        MadeForOthers(cfg, env, acc.st, src, a.hostname, HostKey(cfg, src, host));
        NewHostStays(cfg, env, acc.st, next.st, src, host);
      }
      AddressesStand(cfg, env, src, addresses[1..], next, host);
    }
  }

  lemma {:induction false} SubsetsStand(cfg: Config, env: Env, src: Source, subsets: seq<Subset>, acc: Sync<Subset>,
                                        host: string)
    requires Bearing(ReadyAddresses(subsets), host) == 1 && NewHost(cfg, env, acc.st, src, host) && acc.outcome == Done
    requires MakeSubsets(cfg, env, src, subsets, acc).outcome == Done
    ensures Stands(cfg, env, MakeSubsets(cfg, env, src, subsets, acc).st, src, host)
    decreases |subsets|
  {
    hide MakeAddresses, HostKey, NewHost, Stands;
    var s := subsets[0];
    var next := MakeSubset(cfg, env, src, s, acc);
    var start := Sync<Address>.Sync(acc.st, {}, [], Done);
    HeadlessOrphans.StoppedSubsetStays(cfg, env, src, subsets[1..], next);
    BearingAppends(s.addresses, ReadyAddresses(subsets[1..]), host);
    if Bearing(s.addresses, host) == 1 {
      AddressesStand(cfg, env, src, s.addresses, start, host);
      SubsetsOfOthers(cfg, env, src, subsets[1..], next, host);
      NewHostStays(cfg, env, next.st, MakeSubsets(cfg, env, src, subsets, acc).st, src, host);
    } else {
      AddressesOfOthers(cfg, env, src, s.addresses, start, host);
      NewHostStays(cfg, env, acc.st, next.st, src, host);
      SubsetsStand(cfg, env, src, subsets[1..], next, host);
    }
  }

  /** A new hostname that one ready address bears: the address that its endpoints list is the cluster IP of an endpoint
      mirror that stands, labelled for this mirror. */
  lemma NamesLeadToMirrors(cfg: Config, env: Env, st: State, src: Source, exported: Endpoints, host: string)
    requires CreateHeadlessEndpoints(cfg, env, st, src, exported).1 == Done && host != src.key.name
    requires Bearing(ReadyAddresses(exported.subsets), host) == 1 && NewHost(cfg, env, st, src, host)
    ensures Stands(cfg, env, CreateHeadlessEndpoints(cfg, env, st, src, exported).0, src, host)
    ensures forall a, earlier :: Named(a) && a.hostname == host && a.targetRef.Some? && Bearing(earlier, host) == 0 ==>
              Led(cfg, env, Snapshot(st), src, earlier, a)
                == [Address(env.assignIP(HostKey(cfg, src, host)), a.targetRef.value, None)]
  {
    hide MakeSubsets, MirrorKey, EndpointLabels, GatewayAnnotations, Stands, MadeAfter, Bearing, HostKey;
    SubsetsStand(cfg, env, src, exported.subsets, Sync(st, {}, [], Done), host);
    var r := MakeSubsets(cfg, env, src, exported.subsets, Sync(st, {}, [], Done));
    var post := CreateHeadlessEndpoints(cfg, env, st, src, exported).0;
    HeadlessOrphans.SelfIsMirror(cfg, src, host);
    NewHostStays(cfg, env, r.st, post, src, host);
  }

  /* ---------- what a panic leaves ---------- */

  /** An address without a target whose endpoint mirror stands with its endpoints. */
  ghost predicate LeftBehind(cfg: Config, src: Source, addresses: seq<Address>, st: State) {
    exists a :: && a in addresses && Named(a) && a.targetRef.None?
                && HostKey(cfg, src, a.hostname) in st.services && HostKey(cfg, src, a.hostname) in st.endpoints
  }

  lemma {:induction false} AddressesLeftBehind(cfg: Config, env: Env, src: Source, addresses: seq<Address>,
                                               acc: Sync<Address>)
    requires acc.outcome == Done
    ensures var r := MakeAddresses(cfg, env, src, addresses, acc);
            r.outcome == Crash ==> LeftBehind(cfg, src, addresses, r.st)
    decreases |addresses|
  {
    hide CreateEndpointMirror, HostKey;
    if addresses != [] {
      var a, rest := addresses[0], addresses[1..];
      assert a in addresses && forall x :: x in rest ==> x in addresses;
      var next := MakeAddress(cfg, env, src, a, acc);
      if next.outcome == Done {
        AddressesLeftBehind(cfg, env, src, rest, next);
      } else {
        assert MakeAddresses(cfg, env, src, rest, next) == next;
        EndpointMirrorWritten(cfg, env, acc.st, src, a.hostname);
        SameHostKey(cfg, src, a.hostname);
      }
    }
  }

  lemma SameHostKey(cfg: Config, src: Source, host: string)
    ensures HostKey(cfg, src, host) == Key(src.key.ns, host + "-" + cfg.link.cluster)
  {
  }

  lemma {:induction false} SubsetsLeftBehind(cfg: Config, env: Env, src: Source, subsets: seq<Subset>,
                                             acc: Sync<Subset>)
    requires acc.outcome == Done
    ensures var r := MakeSubsets(cfg, env, src, subsets, acc);
            r.outcome == Crash ==> exists s :: s in subsets && LeftBehind(cfg, src, s.addresses, r.st)
    decreases |subsets|
  {
    hide MakeAddresses, LeftBehind;
    if subsets != [] {
      var s, rest := subsets[0], subsets[1..];
      assert s in subsets && forall x :: x in rest ==> x in subsets;
      var next := MakeSubset(cfg, env, src, s, acc);
      AddressesLeftBehind(cfg, env, src, s.addresses, Sync(acc.st, {}, [], Done));
      if next.outcome == Done {
        SubsetsLeftBehind(cfg, env, src, rest, next);
      } else {
        assert MakeSubsets(cfg, env, src, rest, next) == next;
      }
    }
  }

  /** A handler that panics on an address without a target leaves the endpoint mirror of that address behind. */
  lemma PanicLeavesMirror(cfg: Config, env: Env, st: State, src: Source, exported: Endpoints)
    requires CreateHeadlessEndpoints(cfg, env, st, src, exported).1 == Crash
    ensures exists s :: s in exported.subsets &&
                        LeftBehind(cfg, src, s.addresses, CreateHeadlessEndpoints(cfg, env, st, src, exported).0)
  {
    hide MakeSubsets, LeftBehind;
    SubsetsLeftBehind(cfg, env, src, exported.subsets, Sync(st, {}, [], Done));
  }
}
