/** Periodic repair of the gateway mirrors' endpoints, and how endpoint events move them in between. */
module Repair {
  import opened Strings
  import opened Kubernetes
  import opened Mirror
  import opened Api
  import opened HeadlessMirror
  import opened Handlers
  import opened Effects
  import opened Machine
  import opened Liveness

  type State = Api.State

  /* ---------- repair is canonical ---------- */

  /** A mirror that repair looks after: it has endpoints and is not skipped. */
  predicate Eligible(cfg: Config, st: State, n: Key) {
    n in st.endpoints && n in st.services && GatewayMirror(cfg.link, st.services[n])
  }

  /** Ports under the gateway's number, the gateway's addresses, ready exactly while the gateway lives; or
      nothing at all when the remote service has no ready address. */
  ghost predicate Repaired(cfg: Config, remote: Remote, st: State, addresses: seq<Address>, n: Key)
    requires Eligible(cfg, st, n)
  {
    var svc, subsets := st.services[n], st.endpoints[n].subsets;
    if HEADLESS_NAME !in svc.labels && !Served(remote, OriginalKey(cfg.link, n)) then subsets == []
    else
      && |subsets| == 1
      && (exists number :: HasGatewayPort(cfg.link, number) && SentTo(number, svc.ports, subsets[0].ports))
      && subsets[0].addresses == (if st.gatewayAlive then addresses else [])
      && subsets[0].notReady == (if st.gatewayAlive then [] else addresses)
  }

  lemma RepairedOne(cfg: Config, remote: Remote, env: Env, st: State, addresses: seq<Address>, n: Key)
    requires RepairSucceeds(cfg, env) && Eligible(cfg, st, n)
    ensures var post := RepairAll(cfg, remote, env, st, addresses);
            && Eligible(cfg, post, n) && Repaired(cfg, remote, post, addresses, n)
            && post.endpoints[n].labels == st.endpoints[n].labels
            && post.endpoints[n].annotations
                 == st.endpoints[n].annotations[GATEWAY_IDENTITY := cfg.link.gatewayIdentity]
  {
    hide GatewayMirror, RepairReaches, EndpointPorts, RemoteIsEmpty, OriginalKey, RepairSucceeds, HasGatewayPort;
    hide Served, SentTo;
    var svc := st.services[n];
    RepairReachesAll(cfg, env, n, svc);
    ReachedHasPorts(cfg, env, n, svc);
    EndpointPortsAreExact(cfg.link, svc.ports);
    EmptyIsNotServed(remote, OriginalKey(cfg.link, n));
  }

  /** Repair writes the gateway's own endpoints first. */
  lemma ProbeRepaired(cfg: Config, env: Env, st: State, addresses: seq<Address>)
    ensures var post := RepairProbe(cfg, env, st, addresses);
            && post == st.(endpoints := post.endpoints)
            && (forall n :: n != ProbeKey(cfg) ==>
                  (n in post.endpoints <==> n in st.endpoints)
                  && (n in st.endpoints ==> post.endpoints[n] == st.endpoints[n]))
            && (ProbeKey(cfg) in st.endpoints ==> ProbeKey(cfg) in post.endpoints)
  {
    hide ParseInt, ProbeKey, ProbeEndpoints;
  }

  /** The endpoints through which the gateway is probed list its addresses under the probe port, ready even
      while the gateway is taken to be dead. */
  lemma ProbeStaysReady(cfg: Config, remote: Remote, env: Env, st: State)
    requires RepairSucceeds(cfg, env) && ParseInt(cfg.link.probePort, HALF_32).Some?
    requires cfg.mirrorNamespace in st.namespaces
             && (ProbeKey(cfg) in st.services ==> !GatewayMirror(cfg.link, st.services[ProbeKey(cfg)]))
    ensures var post := HandleRepair(cfg, remote, env, st).0; var n := ProbeKey(cfg);
            && ReadyAt(post, n)
            && post.endpoints[n].subsets == [Subset(ResolveGateway(cfg.link, env.lookup).value, [],
                                    [EndpointPort("mc-probe", "TCP", ParseInt(cfg.link.probePort, HALF_32).value)])]
  {
    hide ResolveGateway, GatewayMirror, ParseInt, RepairOne, ProbeGatewayName;
    var n := ProbeKey(cfg);
    var addresses := ResolveGateway(cfg.link, env.lookup).value;
    var st1 := RepairProbe(cfg, env, st, addresses);
    assert n in st1.endpoints && st1.services == st.services;
    UnreachedIsKept(cfg, remote, env, st1, addresses, n);
    var post := HandleRepair(cfg, remote, env, st).0;
    assert post.endpoints[n] == st1.endpoints[n];
    assert |post.endpoints[n].subsets[0].addresses| > 0;
  }

  /** A successful repair leaves every eligible mirror with the one value that remote emptiness, the
      gateway's addresses and port and its liveness determine, and touches nothing but those mirrors and
      the gateway's own endpoints. */
  lemma RepairIsCanonical(cfg: Config, remote: Remote, env: Env, st: State)
    requires RepairSucceeds(cfg, env)
    ensures var (post, outcome) := HandleRepair(cfg, remote, env, st);
            && outcome == Done
            && post == st.(endpoints := post.endpoints)
            && (forall n :: Eligible(cfg, st, n) ==>
                  Eligible(cfg, post, n) && Repaired(cfg, remote, post, ResolveGateway(cfg.link, env.lookup).value, n))
            && Resolution(cfg.link, env.lookup, ResolveGateway(cfg.link, env.lookup).value)
            && (forall n :: n != ProbeKey(cfg) && !Eligible(cfg, st, n) ==>
                  (n in post.endpoints <==> n in st.endpoints)
                  && (n in st.endpoints ==> post.endpoints[n] == st.endpoints[n]))
  {
    hide ResolveGateway, RepairProbe, GatewayMirror, ParseInt, Canonical, RepairReaches, Repaired, EndpointPorts;
    hide ProbeKey, Resolution;
    ResolveGatewayIsExact(cfg.link, env.lookup);
    var addresses := ResolveGateway(cfg.link, env.lookup).value;
    var st1 := RepairProbe(cfg, env, st, addresses);
    ProbeRepaired(cfg, env, st, addresses);
    var post := HandleRepair(cfg, remote, env, st).0;
    assert post == RepairAll(cfg, remote, env, st1, addresses);
    forall n | Eligible(cfg, st, n) ensures Eligible(cfg, post, n) && Repaired(cfg, remote, post, addresses, n) {
      assert Eligible(cfg, st1, n);
      RepairedOne(cfg, remote, env, st1, addresses, n);
    }
    forall n | n != ProbeKey(cfg) && !Eligible(cfg, st, n)
      ensures (n in post.endpoints <==> n in st.endpoints)
              && (n in st.endpoints ==> post.endpoints[n] == st.endpoints[n])
    {
      if n in st.endpoints {
        UnreachedIsKept(cfg, remote, env, st1, addresses, n);
      }
    }
  }

  lemma UnreachedIsKept(cfg: Config, remote: Remote, env: Env, st: State, addresses: seq<Address>, n: Key)
    requires n in st.endpoints && !Eligible(cfg, st, n)
    ensures RepairOne(cfg, remote, env, st, addresses, n) == st.endpoints[n]
  {
    hide GatewayMirror, EndpointPorts, Canonical;
  }

  /* ---------- order of DNS answers, and doing it twice ---------- */

  function Answers(cfg: Config, env: Env): multiset<string> {
    multiset(GatherIPs(Split(cfg.link.gatewayAddress, ','), env.lookup))
  }

  /** The same addresses in another order give the identical cluster state. */
  lemma RepairIgnoresAnswerOrder(cfg: Config, remote: Remote, first: Env, second: Env, st: State)
    requires Answers(cfg, first) == Answers(cfg, second) && first.ok == second.ok
    ensures HandleRepair(cfg, remote, first, st) == HandleRepair(cfg, remote, second, st)
  {
    hide ResolveGateway, ParseInt, ProbeKey, ProbeEndpoints, GatewayMirror, Canonical, EndpointPorts;
    ResolutionIgnoresOrder(cfg.link, first.lookup, second.lookup);
    forall addresses ensures RepairProbe(cfg, first, st, addresses) == RepairProbe(cfg, second, st, addresses) {
      assert forall k, ep :: CreateEndpoints(first, st, k, ep) == CreateEndpoints(second, st, k, ep);
    }
    forall st1: State, addresses
      ensures RepairAll(cfg, remote, first, st1, addresses) == RepairAll(cfg, remote, second, st1, addresses)
    {
      forall n | n in st1.endpoints
        ensures RepairOne(cfg, remote, first, st1, addresses, n) == RepairOne(cfg, remote, second, st1, addresses, n)
      {
      }
      assert RepairAll(cfg, remote, first, st1, addresses).endpoints
               == RepairAll(cfg, remote, second, st1, addresses).endpoints;
    }
  }

  /** Two states that differ in nothing but the versions and the clock of their endpoints. */
  predicate SameContents(a: State, b: State) {
    && a == b.(endpoints := a.endpoints, now := a.now)
    && a.endpoints.Keys == b.endpoints.Keys
    && forall n :: n in a.endpoints ==> SameEndpoints(a.endpoints[n], b.endpoints[n])
  }

  predicate SameEndpoints(a: Endpoints, b: Endpoints) {
    a.labels == b.labels && a.annotations == b.annotations && a.subsets == b.subsets
  }

  /** What one mirror's repair reads of the state. */
  lemma RepairOneDependsOn(cfg: Config, remote: Remote, env: Env, again: Env, a: State, b: State,
                           addresses: seq<Address>, n: Key)
    requires RepairSucceeds(cfg, env) && RepairSucceeds(cfg, again)
    requires n in a.endpoints && n in b.endpoints && a.services == b.services && a.gatewayAlive == b.gatewayAlive
    requires SameEndpoints(b.endpoints[n], RepairOne(cfg, remote, env, a, addresses, n))
             || SameEndpoints(b.endpoints[n], a.endpoints[n])
    ensures SameEndpoints(RepairOne(cfg, remote, again, b, addresses, n), RepairOne(cfg, remote, env, a, addresses, n))
  {
    hide GatewayMirror, EndpointPorts, Canonical, RepairedAsEmpty, RepairSucceeds, RepairReaches;
    if n in a.services && GatewayMirror(cfg.link, a.services[n]) {
      RepairReachesAll(cfg, env, n, a.services[n]);
      RepairReachesAll(cfg, again, n, a.services[n]);
      ReachedHasPorts(cfg, env, n, a.services[n]);
    } else if n in a.services {
      assert !RepairReaches(cfg, env, n, a.services[n]) && !RepairReaches(cfg, again, n, a.services[n]) by {
        OnlyMirrorsReached(cfg, env, n, a.services[n]);
        OnlyMirrorsReached(cfg, again, n, a.services[n]);
      }
    }
  }

  lemma OnlyMirrorsReached(cfg: Config, env: Env, n: Key, svc: Service)
    ensures RepairReaches(cfg, env, n, svc) ==> GatewayMirror(cfg.link, svc)
  {
    hide GatewayMirror, EndpointPorts, OriginalKey;
  }

  /** A second repair, at any later time and with the same addresses in any order, changes nothing. */
  lemma RepairIsIdempotent(cfg: Config, remote: Remote, env: Env, again: Env, st: State, later: nat)
    requires RepairSucceeds(cfg, env) && RepairSucceeds(cfg, again)
    requires Answers(cfg, env) == Answers(cfg, again)
    ensures var once := HandleRepair(cfg, remote, env, st).0.(now := later);
            SameContents(HandleRepair(cfg, remote, again, once).0, once)
  {
    hide ResolveGateway, RepairProbe, RepairOne, GatewayMirror, ParseInt, ProbeKey, SameEndpoints;
    ResolutionIgnoresOrder(cfg.link, env.lookup, again.lookup);
    var addresses := ResolveGateway(cfg.link, env.lookup).value;
    var st1 := RepairProbe(cfg, env, st, addresses);
    ProbeRepaired(cfg, env, st, addresses);
    var once := RepairAll(cfg, remote, env, st1, addresses).(now := later);
    assert once == HandleRepair(cfg, remote, env, st).0.(now := later);
    var st2 := RepairProbe(cfg, again, once, addresses);
    ProbeRepaired(cfg, again, once, addresses);
    var twice := RepairAll(cfg, remote, again, st2, addresses);
    assert twice == HandleRepair(cfg, remote, again, once).0;
    ProbeAgain(cfg, remote, env, again, st, later, addresses);
    forall n | n in once.endpoints ensures n in st2.endpoints && SameEndpoints(twice.endpoints[n], once.endpoints[n]) {
      if n != ProbeKey(cfg) { SameIsSame(st2.endpoints[n]); }
      assert once.endpoints[n] == RepairOne(cfg, remote, env, st1, addresses, n);
      RepairOneDependsOn(cfg, remote, env, again, st1, st2, addresses, n);
    }
    assert st2.endpoints.Keys == once.endpoints.Keys;
  }

  lemma SameIsSame(ep: Endpoints)
    ensures SameEndpoints(ep, ep)
  {
  }

  /** The second repair writes the gateway's own endpoints as the first one did, or leaves them alone. */
  lemma ProbeAgain(cfg: Config, remote: Remote, env: Env, again: Env, st: State, later: nat, addresses: seq<Address>)
    requires RepairSucceeds(cfg, env) && RepairSucceeds(cfg, again)
    ensures var st1 := RepairProbe(cfg, env, st, addresses);
            var once := RepairAll(cfg, remote, env, st1, addresses).(now := later);
            var st2 := RepairProbe(cfg, again, once, addresses);
            var n := ProbeKey(cfg);
            && (n in once.endpoints <==> n in st2.endpoints)
            && (n in once.endpoints ==>
                  SameEndpoints(st2.endpoints[n], once.endpoints[n])
                  || SameEndpoints(st2.endpoints[n], st1.endpoints[n]))
  {
    hide ParseInt, ResolveGateway, ProbeEndpoints, RepairOne, GatewayMirror, ProbeKey;
  }

  /* ---------- endpoint events ---------- */

  /** Ready exactly when the exported endpoints are and the gateway is alive. */
  predicate Tracks(st: State, n: Key, exported: Endpoints) {
    n in st.endpoints && (HasReady(st.endpoints[n].subsets) <==> HasReady(exported.subsets) && st.gatewayAlive)
  }

  /** After a successful non-headless endpoints event the mirror tracks the exported endpoints, exactly
      unless it was ready behind a dead gateway while the exported ones are ready; nothing else moves. */
  lemma EndpointsTracked(cfg: Config, remote: Remote, env: Env, st: State, k: Key, exported: Endpoints)
    requires !IsHeadlessEndpoints(exported) && HandleEndpoints(cfg, remote, env, st, k, exported).1 == Done
    ensures var n, post := MirrorKey(cfg.link, k), HandleEndpoints(cfg, remote, env, st, k, exported).0;
            && n in st.endpoints
            && (Tracks(post, n, exported) <==>
                  !(HasReady(st.endpoints[n].subsets) && HasReady(exported.subsets) && !st.gatewayAlive))
            && (forall m :: m != n ==>
                  (m in post.endpoints <==> m in st.endpoints)
                  && (m in st.endpoints ==> post.endpoints[m] == st.endpoints[m]))
            && post == st.(endpoints := post.endpoints)
  {
    hide MirrorKey, ResolveGateway, EndpointPorts, Readiness;
    var n := MirrorKey(cfg.link, k);
    ReadinessLaws(st.gatewayAlive, []);
    var addresses := ResolveGateway(cfg.link, env.lookup);
    if k in remote.services && addresses.Some? && EndpointPorts(cfg.link, remote.services[k].ports).Some? {
      var subsets := GatewaySubsets(addresses.value, EndpointPorts(cfg.link, remote.services[k].ports).value);
      assert HasReady(subsets) by { assert subsets[0].addresses != []; }
      ReadinessLaws(st.gatewayAlive, subsets);
    }
  }

  /** In every reachable state without a repair on its way, the endpoint event of a service of the
      link leaves it tracking the exported endpoints. */
  lemma ReachableEndpointsTracked(cfg: Config, start: System, moves: seq<Move>, env: Env, k: Key, exported: Endpoints)
    requires Consistent(cfg, start) && Shielded(cfg, start) && AdmissibleRun(cfg, start, moves)
    requires !RepairQueued(After(cfg, start, moves).queue)
    requires var sys := After(cfg, start, moves); var n := MirrorKey(cfg.link, k);
             && !IsHeadlessEndpoints(exported)
             && n in sys.st.services && Fronts(cfg.link, sys.st.services[n])
             && HandleEndpoints(cfg, sys.remote, env, sys.st, k, exported).1 == Done
    ensures var sys := After(cfg, start, moves);
            Tracks(HandleEndpoints(cfg, sys.remote, env, sys.st, k, exported).0, MirrorKey(cfg.link, k), exported)
  {
    hide AdmissibleRun, After, HandleEndpoints, Fronts, MirrorKey, Consistent, HasReady, Tracks;
    var sys := After(cfg, start, moves);
    LivenessSafety(cfg, start, moves);
    var n := MirrorKey(cfg.link, k);
    EndpointsTracked(cfg, sys.remote, env, sys.st, k, exported);
    assert !sys.st.gatewayAlive && ReadyAt(sys.st, n) ==> !Exposed(cfg, sys.st, n);
  }
}
