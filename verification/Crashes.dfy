/** When a handler panics on nil. An unexport does when its lister fails; a join when the service it was queued with
    has no annotations; a headless endpoints event when a named address without a target reference gets its endpoint
    mirror made. Which does, the event and the store say. */
module Crashes {
  import opened Strings
  import opened Kubernetes
  import opened Mirror
  import opened StatusList
  import opened Federation
  import opened Api
  import opened HeadlessMirror
  import opened Handlers
  import opened Effects

  type State = Api.State

  /* ---------- the guard ---------- */

  /** The event gets as far as creating the endpoints of a headless mirror that has none. */
  predicate CreatesEndpoints(cfg: Config, remote: Remote, env: Env, st: State, k: Key) {
    var mk := MirrorKey(cfg.link, k);
    && env.ok(RemoteGetService(k)) && k in remote.services && remote.services[k].ports != []
    && env.ok(GetService(mk)) && env.ok(GetEndpoints(mk)) && mk !in st.endpoints
    && (mk in st.services ==> Headless(st.services[mk]))
    && (mk !in st.services ==> EnsureNamespace(cfg, env, st, k.ns).1 == Present)
  }

  /** A missing mirror is created first, and its namespace with it. */
  function EnsuredNamespaces(cfg: Config, env: Env, st: State, k: Key): set<string> {
    if MirrorKey(cfg.link, k) in st.services then st.namespaces else EnsureNamespace(cfg, env, st, k.ns).0.namespaces
  }

  /** How many of the addresses bear the hostname. */
  function Bearing(addresses: seq<Address>, host: string): nat {
    if addresses == [] then 0
    else (if Named(addresses[0]) && addresses[0].hostname == host then 1 else 0) + Bearing(addresses[1..], host)
  }

  lemma {:induction false} BearingAppends(a: seq<Address>, b: seq<Address>, host: string)
    ensures Bearing(a + b, host) == Bearing(a, host) + Bearing(b, host)
  {
    if a == [] {
      assert a + b == b;
    } else {
      BearingAppends(a[1..], b, host);
      assert (a + b)[1..] == a[1..] + b;
    }
  }

  /** The endpoint mirror of a hostname is made for the address that comes after n others of that name. The first
      finds the endpoints as they were; where the rollback goes through, each turns what the next one finds. */
  predicate MadeAfter(cfg: Config, env: Env, namespaces: set<string>, endpoints: set<Key>, src: Source, host: string,
                      n: nat) {
    var hk := HostKey(cfg, src, host);
    && ResolveGateway(cfg.link, env.lookup).Some? && EndpointPorts(cfg.link, src.svc.ports).Some?
    && src.key.ns in namespaces
    && env.ok(CreateServiceCall(hk)) && env.ok(CreateEndpointsCall(hk))
    && if env.ok(DeleteServiceCall(hk)) then (n % 2 == 0 <==> hk !in endpoints) else n == 0 && hk !in endpoints
  }

  /** Among the addresses, which come after the earlier ones, is a named one without a target whose endpoint
      mirror is made. */
  predicate Dereferences(cfg: Config, env: Env, namespaces: set<string>, endpoints: set<Key>, src: Source,
                         earlier: seq<Address>, addresses: seq<Address>) {
    exists i :: 0 <= i < |addresses| && DereferencesAt(cfg, env, namespaces, endpoints, src, earlier, addresses, i)
  }

  predicate DereferencesAt(cfg: Config, env: Env, namespaces: set<string>, endpoints: set<Key>, src: Source,
                           earlier: seq<Address>, addresses: seq<Address>, i: nat)
    requires i < |addresses|
  {
    var a := addresses[i];
    && Named(a) && a.targetRef.None?
    && MadeAfter(cfg, env, namespaces, endpoints, src, a.hostname, Bearing(earlier + addresses[..i], a.hostname))
  }

  /** The ready addresses, in order. */
  function ReadyAddresses(subsets: seq<Subset>): seq<Address> {
    if subsets == [] then [] else subsets[0].addresses + ReadyAddresses(subsets[1..])
  }

  /** A headless endpoints event meets a nil target. */
  predicate MeetsNil(cfg: Config, remote: Remote, env: Env, st: State, k: Key, exported: Endpoints) {
    var mk := MirrorKey(cfg.link, k);
    && CreatesEndpoints(cfg, remote, env, st, k)
    && (mk !in st.services ==> ExportsAsHeadless(exported) && env.ok(CreateServiceCall(mk)))
    && Dereferences(cfg, env, EnsuredNamespaces(cfg, env, st, k), st.endpoints.Keys,
                    Source(k, remote.services[k], exported.version), [], ReadyAddresses(exported.subsets))
  }

  /** A join writes into the annotations of the copy it was queued with, which are nil if there are none. */
  predicate WritesNil(ev: Event)
    requires ev.JoinFederated?
  {
    !Headless(ev.svc) && ev.local.annotations == map[]
  }

  /* ---------- one endpoint mirror ---------- */

  /** Which objects stand at mk. */
  predicate SamePresence(pre: State, post: State, mk: Key) {
    && (mk in post.services <==> mk in pre.services) && (mk in post.endpoints <==> mk in pre.endpoints)
    && post.namespaces == pre.namespaces
  }

  lemma CallsElsewhere(env: Env, st: State, k: Key, svc: Service, ep: Endpoints, mk: Key)
    requires k != mk
    ensures SamePresence(st, CreateService(env, st, k, svc).0, mk) && SamePresence(st, DeleteService(env, st, k).0, mk)
    ensures SamePresence(st, CreateEndpoints(env, st, k, ep).0, mk)
  {
    hide Stamp;
  }

  lemma HostKeysDiffer(cfg: Config, src: Source, a: string, b: string)
    ensures HostKey(cfg, src, a) == HostKey(cfg, src, b) ==> a == b
    ensures HostKey(cfg, src, a).ns == src.key.ns
  {
    assert HostKey(cfg, src, a) == MirrorKey(cfg.link, Key(src.key.ns, a));
    assert HostKey(cfg, src, b) == MirrorKey(cfg.link, Key(src.key.ns, b));
    MirrorKeyInjective(cfg.link, Key(src.key.ns, a), Key(src.key.ns, b));
  }

  lemma MakingElsewhere(cfg: Config, env: Env, st: State, src: Source, host: string, mk: Key)
    requires HostKey(cfg, src, host) != mk
    ensures SamePresence(st, CreateEndpointMirror(cfg, env, st, src, host).st, mk)
  {
    hide ResolveGateway, EndpointPorts, NewEndpointMirror, NewEndpointMirrorEndpoints, ByLiveness, HostKey;
    hide CreateService, CreateEndpoints, DeleteService;
    var k := HostKey(cfg, src, host);
    var addresses, ports := ResolveGateway(cfg.link, env.lookup), EndpointPorts(cfg.link, src.svc.ports);
    if addresses.Some? && ports.Some? {
      var svc := NewEndpointMirror(cfg, src, host);
      var ep := NewEndpointMirrorEndpoints(cfg, src, host, addresses.value, ports.value);
      CallsElsewhere(env, st, k, svc, ep, mk);
      var st1 := CreateService(env, st, k, svc).0;
      CallsElsewhere(env, st1, k, svc, ByLiveness(st1, ep), mk);
      CallsElsewhere(env, CreateEndpoints(env, st1, k, ByLiveness(st1, ep)).0, k, svc, ep, mk);
    }
  }

  /** Making one endpoint mirror: whether it is made, and what the next address of its name finds. */
  lemma MadeAtOnce(cfg: Config, env: Env, st: State, src: Source, host: string)
    ensures var made := CreateEndpointMirror(cfg, env, st, src, host); var hk := HostKey(cfg, src, host);
            && made.st.namespaces == st.namespaces
            && (made.outcome == Done <==> MadeAfter(cfg, env, st.namespaces, st.endpoints.Keys, src, host, 0))
            && (forall n: nat :: MadeAfter(cfg, env, st.namespaces, made.st.endpoints.Keys, src, host, n) <==>
                                 MadeAfter(cfg, env, st.namespaces, st.endpoints.Keys, src, host, n + 1))
  {
    hide ResolveGateway, EndpointPorts, NewEndpointMirror, NewEndpointMirrorEndpoints, ByLiveness, Stamp, HostKey;
    HostKeysDiffer(cfg, src, host, host);
  }

  /** The store after some addresses were handled, as the later ones see it. */
  ghost predicate SeenAfter(cfg: Config, env: Env, namespaces: set<string>, endpoints: set<Key>, src: Source,
                            earlier: seq<Address>, st: State) {
    && st.namespaces == namespaces
    && forall host, n: nat :: MadeAfter(cfg, env, namespaces, st.endpoints.Keys, src, host, n) <==>
                              MadeAfter(cfg, env, namespaces, endpoints, src, host, n + Bearing(earlier, host))
  }

  lemma SeenAt(cfg: Config, env: Env, namespaces: set<string>, endpoints: set<Key>, src: Source,
               earlier: seq<Address>, st: State, host: string, n: nat)
    requires SeenAfter(cfg, env, namespaces, endpoints, src, earlier, st)
    ensures MadeAfter(cfg, env, namespaces, st.endpoints.Keys, src, host, n) <==>
            MadeAfter(cfg, env, namespaces, endpoints, src, host, n + Bearing(earlier, host))
  {
    hide MadeAfter, Bearing;
  }

  lemma BearingNext(earlier: seq<Address>, a: Address, host: string)
    ensures Bearing(earlier + [a], host) == Bearing(earlier, host) + if Named(a) && a.hostname == host then 1 else 0
  {
    BearingAppends(earlier, [a], host);
    assert Bearing([a][1..], host) == 0;
  }

  /** What the address after a finds of one hostname. */
  lemma SeenOfHost(cfg: Config, env: Env, namespaces: set<string>, endpoints: set<Key>, src: Source,
                   earlier: seq<Address>, st: State, a: Address, host: string, n: nat)
    requires SeenAfter(cfg, env, namespaces, endpoints, src, earlier, st) && st.namespaces == namespaces
    ensures var post := if Named(a) then CreateEndpointMirror(cfg, env, st, src, a.hostname).st else st;
            MadeAfter(cfg, env, namespaces, post.endpoints.Keys, src, host, n) <==>
            MadeAfter(cfg, env, namespaces, endpoints, src, host, n + Bearing(earlier + [a], host))
  {
    hide CreateEndpointMirror, MadeAfter, SeenAfter, Bearing, Named;
    BearingNext(earlier, a, host);
    if !Named(a) {
      SeenAt(cfg, env, namespaces, endpoints, src, earlier, st, host, n);
    } else if a.hostname != host {
      OtherHostUnseen(cfg, env, st, src, a.hostname, host, n);
      SeenAt(cfg, env, namespaces, endpoints, src, earlier, st, host, n);
    } else {
      MadeAgain(cfg, env, st, src, host, n);
      SeenAt(cfg, env, namespaces, endpoints, src, earlier, st, host, n + 1);
    }
  }

  lemma MadeAgain(cfg: Config, env: Env, st: State, src: Source, host: string, n: nat)
    ensures var made := CreateEndpointMirror(cfg, env, st, src, host);
            MadeAfter(cfg, env, st.namespaces, made.st.endpoints.Keys, src, host, n) <==>
            MadeAfter(cfg, env, st.namespaces, st.endpoints.Keys, src, host, n + 1)
  {
    hide CreateEndpointMirror, MadeAfter;
    MadeAtOnce(cfg, env, st, src, host);
  }

  lemma SeenNext(cfg: Config, env: Env, namespaces: set<string>, endpoints: set<Key>, src: Source,
                 earlier: seq<Address>, st: State, a: Address)
    requires SeenAfter(cfg, env, namespaces, endpoints, src, earlier, st)
    ensures var made := CreateEndpointMirror(cfg, env, st, src, a.hostname);
            && (made.outcome == Done <==>
                  MadeAfter(cfg, env, namespaces, endpoints, src, a.hostname, Bearing(earlier, a.hostname)))
            && SeenAfter(cfg, env, namespaces, endpoints, src, earlier + [a], if Named(a) then made.st else st)
  {
    hide CreateEndpointMirror, MadeAfter, Bearing, Named;
    var made := CreateEndpointMirror(cfg, env, st, src, a.hostname);
    var post := if Named(a) then made.st else st;
    assert made.st.namespaces == st.namespaces
           && (made.outcome == Done <==> MadeAfter(cfg, env, st.namespaces, st.endpoints.Keys, src, a.hostname, 0)) by {
      MadeAtOnce(cfg, env, st, src, a.hostname);
    }
    SeenAt(cfg, env, namespaces, endpoints, src, earlier, st, a.hostname, 0);
    forall host, n: nat
      ensures MadeAfter(cfg, env, namespaces, post.endpoints.Keys, src, host, n) <==>
              MadeAfter(cfg, env, namespaces, endpoints, src, host, n + Bearing(earlier + [a], host))
    {
      SeenOfHost(cfg, env, namespaces, endpoints, src, earlier, st, a, host, n);
    }
  }

  lemma OtherHostUnseen(cfg: Config, env: Env, st: State, src: Source, made: string, host: string, n: nat)
    requires made != host
    ensures MadeAfter(cfg, env, st.namespaces, CreateEndpointMirror(cfg, env, st, src, made).st.endpoints.Keys, src,
                      host, n)
            <==> MadeAfter(cfg, env, st.namespaces, st.endpoints.Keys, src, host, n)
  {
    hide CreateEndpointMirror, HostKey, ResolveGateway, EndpointPorts;
    HostKeysDiffer(cfg, src, made, host);
    MakingElsewhere(cfg, env, st, src, made, HostKey(cfg, src, host));
  }

  /* ---------- the loops ---------- */

  lemma DereferencesFirst(cfg: Config, env: Env, namespaces: set<string>, endpoints: set<Key>, src: Source,
                          earlier: seq<Address>, addresses: seq<Address>)
    requires addresses != []
    ensures Dereferences(cfg, env, namespaces, endpoints, src, earlier, addresses) <==>
              || DereferencesAt(cfg, env, namespaces, endpoints, src, earlier, addresses, 0)
              || Dereferences(cfg, env, namespaces, endpoints, src, earlier + [addresses[0]], addresses[1..])
  {
    hide MadeAfter, Bearing;
    var rest := addresses[1..];
    forall i: nat | i < |rest|
      ensures DereferencesAt(cfg, env, namespaces, endpoints, src, earlier, addresses, i + 1) <==>
              DereferencesAt(cfg, env, namespaces, endpoints, src, earlier + [addresses[0]], rest, i)
    {
      assert earlier + addresses[..i + 1] == earlier + [addresses[0]] + rest[..i];
      assert addresses[i + 1] == rest[i];
    }
    if Dereferences(cfg, env, namespaces, endpoints, src, earlier, addresses) {
      var i: nat :| i < |addresses| && DereferencesAt(cfg, env, namespaces, endpoints, src, earlier, addresses, i);
      if i > 0 {
        assert DereferencesAt(cfg, env, namespaces, endpoints, src, earlier + [addresses[0]], rest, i - 1);
      }
    }
    if Dereferences(cfg, env, namespaces, endpoints, src, earlier + [addresses[0]], rest) {
      var i: nat :| i < |rest| && DereferencesAt(cfg, env, namespaces, endpoints, src, earlier + [addresses[0]], rest,
                                                 i);
      assert DereferencesAt(cfg, env, namespaces, endpoints, src, earlier, addresses, i + 1);
    }
  }

  lemma {:induction false} AddressesCrash(cfg: Config, env: Env, namespaces: set<string>, endpoints: set<Key>,
                                          src: Source, earlier: seq<Address>, addresses: seq<Address>,
                                          acc: Sync<Address>)
    requires acc.outcome == Done && SeenAfter(cfg, env, namespaces, endpoints, src, earlier, acc.st)
    ensures var r := MakeAddresses(cfg, env, src, addresses, acc);
            if Dereferences(cfg, env, namespaces, endpoints, src, earlier, addresses) then r.outcome == Crash
            else r.outcome == Done && SeenAfter(cfg, env, namespaces, endpoints, src, earlier + addresses, r.st)
    decreases |addresses|
  {
    hide CreateEndpointMirror, MadeAfter, SeenAfter, Dereferences, Bearing;
    if addresses == [] {
      assert !Dereferences(cfg, env, namespaces, endpoints, src, earlier, addresses) by {
        NothingDereferences(cfg, env, namespaces, endpoints, src, earlier);
      }
      assert earlier + addresses == earlier;
    } else {
      var a := addresses[0];
      SeenNext(cfg, env, namespaces, endpoints, src, earlier, acc.st, a);
      DereferencesFirst(cfg, env, namespaces, endpoints, src, earlier, addresses);
      assert earlier + addresses[..0] == earlier;
      var next := MakeAddress(cfg, env, src, a, acc);
      if next.outcome == Done {
        AddressesCrash(cfg, env, namespaces, endpoints, src, earlier + [a], addresses[1..], next);
        assert earlier + [a] + addresses[1..] == earlier + addresses;
      } else {
        assert MakeAddresses(cfg, env, src, addresses[1..], next) == next;
      }
    }
  }

  lemma NothingDereferences(cfg: Config, env: Env, namespaces: set<string>, endpoints: set<Key>, src: Source,
                            earlier: seq<Address>)
    ensures !Dereferences(cfg, env, namespaces, endpoints, src, earlier, [])
  {
  }

  lemma {:induction false} DereferencesInTwo(cfg: Config, env: Env, namespaces: set<string>, endpoints: set<Key>,
                                             src: Source, earlier: seq<Address>, a: seq<Address>, b: seq<Address>)
    ensures Dereferences(cfg, env, namespaces, endpoints, src, earlier, a + b) <==>
              || Dereferences(cfg, env, namespaces, endpoints, src, earlier, a)
              || Dereferences(cfg, env, namespaces, endpoints, src, earlier + a, b)
    decreases |a|
  {
    hide DereferencesAt, Dereferences;
    if a == [] {
      NothingDereferences(cfg, env, namespaces, endpoints, src, earlier);
      assert a + b == b && earlier + a == earlier;
    } else {
      DereferencesFirst(cfg, env, namespaces, endpoints, src, earlier, a + b);
      DereferencesFirst(cfg, env, namespaces, endpoints, src, earlier, a);
      assert (a + b)[1..] == a[1..] + b && (a + b)[0] == a[0];
      DereferencesInTwo(cfg, env, namespaces, endpoints, src, earlier + [a[0]], a[1..], b);
      assert earlier + [a[0]] + a[1..] == earlier + a;
      FirstIsFirst(cfg, env, namespaces, endpoints, src, earlier, a, b);
    }
  }

  lemma FirstIsFirst(cfg: Config, env: Env, namespaces: set<string>, endpoints: set<Key>, src: Source,
                     earlier: seq<Address>, a: seq<Address>, b: seq<Address>)
    requires a != []
    ensures DereferencesAt(cfg, env, namespaces, endpoints, src, earlier, a + b, 0) <==>
            DereferencesAt(cfg, env, namespaces, endpoints, src, earlier, a, 0)
  {
    hide MadeAfter, Bearing;
    assert (a + b)[..0] == a[..0];
  }

  lemma {:induction false} SubsetsCrash(cfg: Config, env: Env, namespaces: set<string>, endpoints: set<Key>,
                                        src: Source, earlier: seq<Address>, subsets: seq<Subset>, acc: Sync<Subset>)
    requires acc.outcome == Done && SeenAfter(cfg, env, namespaces, endpoints, src, earlier, acc.st)
    ensures MakeSubsets(cfg, env, src, subsets, acc).outcome ==
            if Dereferences(cfg, env, namespaces, endpoints, src, earlier, ReadyAddresses(subsets)) then Crash else Done
    decreases |subsets|
  {
    hide MakeAddresses, SeenAfter, Dereferences;
    if subsets == [] {
      NothingDereferences(cfg, env, namespaces, endpoints, src, earlier);
    } else {
      var s := subsets[0];
      AddressesCrash(cfg, env, namespaces, endpoints, src, earlier, s.addresses, Sync(acc.st, {}, [], Done));
      DereferencesInTwo(cfg, env, namespaces, endpoints, src, earlier, s.addresses, ReadyAddresses(subsets[1..]));
      var next := MakeSubset(cfg, env, src, s, acc);
      if next.outcome == Done {
        SubsetsCrash(cfg, env, namespaces, endpoints, src, earlier + s.addresses, subsets[1..], next);
      } else {
        assert MakeSubsets(cfg, env, src, subsets[1..], next) == next;
      }
    }
  }

  /** Creating the endpoints of a headless mirror crashes exactly when some address is dereferenced. */
  lemma CreatingCrashes(cfg: Config, env: Env, st: State, src: Source, exported: Endpoints)
    ensures CreateHeadlessEndpoints(cfg, env, st, src, exported).1 == Crash <==>
              Dereferences(cfg, env, st.namespaces, st.endpoints.Keys, src, [], ReadyAddresses(exported.subsets))
  {
    hide MakeSubsets, Dereferences, MadeAfter, EndpointLabels, GatewayAnnotations, FqName, MirrorKey, CreateEndpoints;
    hide DeleteService;
    assert SeenAfter(cfg, env, st.namespaces, st.endpoints.Keys, src, [], st);
    SubsetsCrash(cfg, env, st.namespaces, st.endpoints.Keys, src, [], exported.subsets, Sync(st, {}, [], Done));
  }

  /** The loops end normally or with the nil dereference, and add no namespace. */
  lemma {:induction false} AddressesEnd(cfg: Config, env: Env, src: Source, addresses: seq<Address>, acc: Sync<Address>)
    requires acc.outcome == Done || acc.outcome == Crash
    ensures var r := MakeAddresses(cfg, env, src, addresses, acc);
            (r.outcome == Done || r.outcome == Crash) && r.st.namespaces == acc.st.namespaces
    decreases |addresses|
  {
    hide CreateEndpointMirror, MadeAfter;
    if addresses != [] && acc.outcome == Done {
      assert CreateEndpointMirror(cfg, env, acc.st, src, addresses[0].hostname).st.namespaces == acc.st.namespaces by {
        MadeAtOnce(cfg, env, acc.st, src, addresses[0].hostname);
      }
      AddressesEnd(cfg, env, src, addresses[1..], MakeAddress(cfg, env, src, addresses[0], acc));
    }
  }

  lemma {:induction false} SubsetsEnd(cfg: Config, env: Env, src: Source, subsets: seq<Subset>, acc: Sync<Subset>)
    requires acc.outcome == Done || acc.outcome == Crash
    ensures var r := MakeSubsets(cfg, env, src, subsets, acc);
            (r.outcome == Done || r.outcome == Crash) && r.st.namespaces == acc.st.namespaces
    decreases |subsets|
  {
    hide MakeAddresses;
    if subsets != [] && acc.outcome == Done {
      AddressesEnd(cfg, env, src, subsets[0].addresses, Sync(acc.st, {}, [], Done));
      SubsetsEnd(cfg, env, src, subsets[1..], MakeSubset(cfg, env, src, subsets[0], acc));
    }
  }

  /* ---------- the whole event ---------- */

  lemma OthersDoNotCrash(cfg: Config, remote: Remote, env: Env, st: State, src: Source, exported: Endpoints)
    ensures CreateHeadlessService(cfg, env, st, src, exported).outcome != Crash
    ensures forall st0: State :: CreateGatewayEndpoints(cfg, remote, env, st0, src.key, src.svc).1 != Crash
    ensures forall st0: State, local :: SyncHeadless(cfg, env, st0, src, exported, local).1 != Crash
  {
    hide ExportsAsHeadless, NewMirror, MirrorKey, ResolveGateway, EndpointPorts, NewGatewayEndpoints, ByLiveness;
    hide SyncSubsets;
    hide EnsureNamespace, CreateService, CreateEndpoints, DeleteService, Stamp, Unwanted, Purge, UpdateEndpoints;
    forall st0: State, local ensures SyncHeadless(cfg, env, st0, src, exported, local).1 != Crash {
      SyncEnds(cfg, env, src, exported.subsets, Sync(st0, {}, [], Done));
    }
  }

  lemma {:induction false} SyncAddressesEnd(cfg: Config, env: Env, src: Source, addresses: seq<Address>,
                                            acc: Sync<Address>)
    requires acc.outcome != Crash
    ensures SyncAddresses(cfg, env, src, addresses, acc).outcome != Crash
    decreases |addresses|
  {
    hide HostKey, NewEndpointMirror, NewEndpointMirrorEndpoints, ByLiveness, ResolveGateway, EndpointPorts, Stamp;
    if addresses != [] && acc.outcome == Done {
      SyncAddressesEnd(cfg, env, src, addresses[1..], SyncAddress(cfg, env, src, addresses[0], acc));
    }
  }

  lemma {:induction false} SyncEnds(cfg: Config, env: Env, src: Source, subsets: seq<Subset>, acc: Sync<Subset>)
    requires acc.outcome != Crash
    ensures SyncSubsets(cfg, env, src, subsets, acc).outcome != Crash
    decreases |subsets|
  {
    hide SyncAddresses;
    if subsets != [] && acc.outcome == Done {
      SyncAddressesEnd(cfg, env, src, subsets[0].addresses, Sync(acc.st, acc.wanted, [], Done));
      SyncEnds(cfg, env, src, subsets[1..], SyncSubset(cfg, env, src, subsets[0], acc));
    }
  }

  /** When a missing mirror is made as a headless one. */
  lemma MadeAsHeadless(cfg: Config, env: Env, st: State, src: Source, exported: Endpoints)
    requires ValidEnv(env) && MirrorKey(cfg.link, src.key) !in st.services
    ensures var made := CreateHeadlessService(cfg, env, st, src, exported);
            var (ensured, found) := EnsureNamespace(cfg, env, st, src.key.ns);
            && made.st.endpoints == st.endpoints
            && (made.outcome == Done && made.ip == CLUSTER_IP_NONE <==>
                  found == Present && ExportsAsHeadless(exported)
                  && env.ok(CreateServiceCall(MirrorKey(cfg.link, src.key))))
            && (made.outcome == Done && made.ip == CLUSTER_IP_NONE ==> made.st.namespaces == ensured.namespaces)
  {
    hide MirrorKey, MirrorLabels, MirrorAnnotations, RemapPorts, ExportsAsHeadless, EnsureNamespace;
    EnsureNamespaceFacts(cfg, env, st, src.key.ns);
    assert MirrorKey(cfg.link, src.key).ns == src.key.ns by { SameNamespace(cfg, src.key); }
    assert exported.subsets == [] ==> !ExportsAsHeadless(exported) by { EmptyIsNotHeadless(exported); }
    assert |""| != |CLUSTER_IP_NONE|;
  }

  lemma EmptyIsNotHeadless(exported: Endpoints)
    ensures exported.subsets == [] ==> !ExportsAsHeadless(exported)
  {
  }

  /** A headless endpoints event dereferences nil exactly when it creates the endpoints of a headless mirror, which
      it can make if it is missing, and one of the ready addresses, taken in order, is named, has no target
      reference and gets its endpoint mirror made. */
  lemma HeadlessEventCrashes(cfg: Config, remote: Remote, env: Env, st: State, k: Key, exported: Endpoints)
    requires ValidEnv(env)
    ensures HandleHeadless(cfg, remote, env, st, k, exported).1 == Crash <==>
              MeetsNil(cfg, remote, env, st, k, exported)
  {
    hide MirrorKey, CreateHeadlessService, CreateGatewayEndpoints, CreateHeadlessEndpoints, SyncHeadless, ValidEnv;
    hide Dereferences, ExportsAsHeadless, EnsureNamespace;
    var mk := MirrorKey(cfg.link, k);
    if env.ok(RemoteGetService(k)) && k in remote.services && remote.services[k].ports != [] && env.ok(GetService(mk)) {
      var src := Source(k, remote.services[k], exported.version);
      var made := if mk in st.services then Created(st, st.services[mk].clusterIP, Done)
                  else CreateHeadlessService(cfg, env, st, src, exported);
      OthersDoNotCrash(cfg, remote, env, st, src, exported);
      if mk !in st.services {
        MadeAsHeadless(cfg, env, st, src, exported);
      }
      CreatingCrashes(cfg, env, made.st, src, exported);
    }
  }

  /* ---------- every event ---------- */

  lemma ExportEnds(cfg: Config, remote: Remote, env: Env, st: State, k: Key, svc: Service)
    ensures HandleExported(cfg, remote, env, st, k, svc).1 != Crash
  {
    hide MirrorKey, NewMirror, IsRemoteDiscovery, Mirrored, Failure, Headless, PutMirrorStatus, CreateService;
    hide ResolveGateway, EndpointPorts, NewGatewayEndpoints, ByLiveness, CreateEndpoints, DeleteService;
    hide EnsureNamespace;
  }

  lemma UpdateEnds(cfg: Config, remote: Remote, env: Env, st: State, ev: Event)
    requires ev.Updated?
    ensures HandleUpdated(cfg, remote, env, st, ev).outcome != Crash
  {
    hide MirrorKey, UpdatedLocal, IsRemoteDiscovery, Mirrored, Failure, PutMirrorStatus, UpdateService, UpdateEndpoints;
    hide ResolveGateway, EndpointPorts, NewGatewayEndpoints, ByLiveness, CreateEndpoints, DeleteService;
    hide DeleteEndpoints;
    hide GatewaySubsets;
  }

  lemma FederatedEnds(cfg: Config, env: Env, st: State, ev: Event)
    ensures ev.CreateFederated? ==> HandleCreateFederated(cfg, env, st, ev.key, ev.svc).1 != Crash
    ensures ev.JoinFederated? ==> (HandleJoin(cfg, env, st, ev).outcome == Crash <==> WritesNil(ev))
    ensures ev.LeaveFederated? ==> HandleLeave(cfg, env, st, ev.key).1 != Crash
  {
    hide FederatedKey, CommonLabels, CreatedAnnotations, JoinedAnnotations, LeftAnnotations, RemapPorts, Headless;
    hide PutFederatedStatus, DropFederatedStatus, Mirrored, Failure, EnsureNamespace, CreateService, UpdateService;
    hide DeleteService, NoMembers;
    if ev.JoinFederated? {
      NilIsWritten(cfg.link.cluster, ev.key.name);
    }
  }

  /** No annotations, no members: a join always has something to write. */
  lemma NilIsWritten(cluster: string, name: string)
    ensures JoinedAnnotations(cluster, name, map[]).Some?
  {
    SplitWithoutSeparator("", ',');
  }

  lemma PlainEndpointsEnd(cfg: Config, remote: Remote, env: Env, st: State, k: Key, ep: Endpoints)
    requires !(IsHeadlessEndpoints(ep) && cfg.headlessEnabled)
    ensures HandleEndpoints(cfg, remote, env, st, k, ep).1 != Crash
  {
    hide HandleHeadless, MirrorKey, ResolveGateway, EndpointPorts, GatewaySubsets, ByLiveness, HasReady;
    hide UpdateEndpoints;
  }

  lemma SweepsEnd(cfg: Config, remote: Remote, env: Env, st: State)
    ensures HandleGc(cfg, remote, env, st).1 != Crash && HandleCleanup(cfg, env, st).1 != Crash
    ensures HandleRepair(cfg, remote, env, st).1 != Crash
  {
    hide Purge, PurgeEndpoints, OriginOf, LinkEndpoints, LinkServices, RepairProbe, RepairAll, ResolveGateway;
  }

  lemma DecisionEnds(cfg: Config, env: Env, st: State, ev: Event)
    requires ev.OnAdd? || ev.OnUpdate?
    ensures CreateOrUpdate(cfg, env, st, ev).outcome != Crash
  {
    hide MirrorKey, FederatedKey, Desired, IsFederatedMember, PutFederatedStatus, FormatNat;
  }

  /** A handler panics on nil exactly in three cases: an unexport whose lister fails, a join whose copy has no
      annotations, and a headless endpoints event that meets a nil target. */
  lemma HandlerCrashes(cfg: Config, remote: Remote, env: Env, st: State, ev: Event)
    requires ValidEnv(env)
    ensures Handle(cfg, remote, env, st, ev).outcome == Crash <==>
              || (ev.Unexported? && !env.ok(GetService(MirrorKey(cfg.link, ev.key))))
              || (ev.JoinFederated? && WritesNil(ev))
              || (HeadlessEvent(cfg, ev) && MeetsNil(cfg, remote, env, st, ev.key, ev.ep))
  {
    hide CreateOrUpdate, HandleEndpoints, HandleExported, HandleUpdated, HandleUnexported, HandleCreateFederated;
    hide HandleJoin, HandleLeave, HandleCleanup, HandleGc, HandleRepair, OnAdds, ValidEnv;
    hide HandleHeadless, MeetsNil, IsHeadlessEndpoints, MirrorKey, Desired, IsFederatedMember;
    SweepsEnd(cfg, remote, env, st);
    FederatedEnds(cfg, env, st, ev);
    match ev
    case OnAdd(_, _) => DecisionEnds(cfg, env, st, ev);
    case OnUpdate(_, _) => DecisionEnds(cfg, env, st, ev);
    case OnAddEndpoints(k, ep) => EndpointsCrash(cfg, remote, env, st, ev, k, ep);
    case OnUpdateEndpoints(k, ep) => EndpointsCrash(cfg, remote, env, st, ev, k, ep);
    case Exported(k, svc) => ExportEnds(cfg, remote, env, st, k, svc);
    case Updated(_, _, _, _) => UpdateEnds(cfg, remote, env, st, ev);
    case Unexported(k) => UnexportCrashes(cfg, env, st, k);
    case _ =>
  }

  lemma EndpointsCrash(cfg: Config, remote: Remote, env: Env, st: State, ev: Event, k: Key, ep: Endpoints)
    requires ValidEnv(env) && (ev == OnAddEndpoints(k, ep) || ev == OnUpdateEndpoints(k, ep))
    ensures HandleEndpoints(cfg, remote, env, st, k, ep).1 == Crash <==>
              HeadlessEvent(cfg, ev) && MeetsNil(cfg, remote, env, st, k, ep)
  {
    hide HandleHeadless, MeetsNil, IsHeadlessEndpoints, ValidEnv, MirrorKey, ResolveGateway, EndpointPorts, HasReady;
    if IsHeadlessEndpoints(ep) && cfg.headlessEnabled {
      HeadlessEventCrashes(cfg, remote, env, st, k, ep);
    } else {
      PlainEndpointsEnd(cfg, remote, env, st, k, ep);
    }
  }

  lemma UnexportCrashes(cfg: Config, env: Env, st: State, k: Key)
    ensures HandleUnexported(cfg, env, st, k).1 == Crash <==> !env.ok(GetService(MirrorKey(cfg.link, k)))
  {
    hide MirrorKey, DropMirrorStatus, EndpointMirrorsOf, Purge, DeleteService, Headless;
  }

  /* ---------- such an event ---------- */

  /** Endpoints with one named address that has no target reference. */
  predicate Untargeted(ep: Endpoints, host: string) {
    |ep.subsets| == 1 && |ep.subsets[0].addresses| == 1
    && ep.subsets[0].addresses[0] == Address(ep.subsets[0].addresses[0].ip, host, None)
  }

  /** One named address without a target reference is enough, with every call going through, in any endpoints that
      the informer reports as headless. */
  lemma UntargetedAddressCrashes(cfg: Config, remote: Remote, env: Env, st: State, ev: Event, host: string)
    requires ValidEnv(env) && (forall c :: env.ok(c)) && cfg.headlessEnabled && host != ""
    requires ev.OnAddEndpoints? || ev.OnUpdateEndpoints?
    requires PassesFilter(cfg.link, ev) && IsHeadlessEndpoints(ev.ep) && Untargeted(ev.ep, host)
    requires ev.key.ns in st.namespaces && ev.key in remote.services && remote.services[ev.key].ports != []
    requires ResolveGateway(cfg.link, env.lookup).Some? && ParseInt(cfg.link.gatewayPort, HALF_32).Some?
    requires MirrorKey(cfg.link, ev.key) !in st.services && MirrorKey(cfg.link, ev.key) !in st.endpoints
    requires HostKey(cfg, Source(ev.key, remote.services[ev.key], ev.ep.version), host) !in st.endpoints
    ensures Handle(cfg, remote, env, st, ev).outcome == Crash
  {
    hide Handle, MirrorKey, HostKey, ResolveGateway, ParseInt, ValidEnv, PassesFilter;
    var k, subset := ev.key, ev.ep.subsets[0];
    var a := subset.addresses[0];
    var src := Source(k, remote.services[k], ev.ep.version);
    assert ev.ep.subsets == [subset] && subset.addresses == [a];
    assert ReadyAddresses([subset][1..]) == [] && ReadyAddresses([subset]) == [a];
    assert Named(subset.addresses[0]) && ExportsAsHeadless(ev.ep);
    assert EnsuredNamespaces(cfg, env, st, k) == st.namespaces;
    assert [] + [a][..0] == [] && Bearing([], host) == 0;
    assert DereferencesAt(cfg, env, st.namespaces, st.endpoints.Keys, src, [], [a], 0);
    assert MeetsNil(cfg, remote, env, st, k, ev.ep);
    HandlerCrashes(cfg, remote, env, st, ev);
  }

  /** A service that somebody else made under the federated name, without annotations, is enough as well: deciding
      on a member queues its join, and the join panics whatever has happened in between. */
  lemma ForeignFederatedCrashes(cfg: Config, remote: Remote, env: Env, st: State, ev: Event)
    requires (ev.OnAdd? || ev.OnUpdate?) && (forall c :: env.ok(c))
    requires IsFederatedMember(cfg.link, ev.svc.labels) && !Headless(ev.svc)
    requires Desired(cfg.link, ev.svc.labels) ==> MirrorKey(cfg.link, ev.key) in st.services
    requires FederatedKey(ev.key) in st.services && st.services[FederatedKey(ev.key)].annotations == map[]
    ensures var join := JoinFederated(ev.key, st.services[FederatedKey(ev.key)], ev.svc);
            && join in Handle(cfg, remote, env, st, ev).spawned
            && forall remote', env', st' :: ValidEnv(env') ==> Handle(cfg, remote', env', st', join).outcome == Crash
  {
    hide Handle, MirrorKey, FederatedKey, IsFederatedMember, Desired, Headless, ValidEnv;
    JoinIsDecided(cfg, remote, env, st, ev);
    var join := JoinFederated(ev.key, st.services[FederatedKey(ev.key)], ev.svc);
    forall remote', env', st' | ValidEnv(env') ensures Handle(cfg, remote', env', st', join).outcome == Crash {
      HandlerCrashes(cfg, remote', env', st', join);
    }
  }

  lemma JoinIsDecided(cfg: Config, remote: Remote, env: Env, st: State, ev: Event)
    requires (ev.OnAdd? || ev.OnUpdate?) && (forall c :: env.ok(c)) && IsFederatedMember(cfg.link, ev.svc.labels)
    requires Desired(cfg.link, ev.svc.labels) ==> MirrorKey(cfg.link, ev.key) in st.services
    requires FederatedKey(ev.key) in st.services
    ensures var spawned := Handle(cfg, remote, env, st, ev).spawned;
            spawned != [] && spawned[|spawned| - 1] == JoinFederated(ev.key, st.services[FederatedKey(ev.key)], ev.svc)
  {
    hide MirrorKey, FederatedKey, IsFederatedMember, Desired, FormatNat;
  }
}
