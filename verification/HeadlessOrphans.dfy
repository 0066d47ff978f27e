/** Which headless endpoints events leave ready endpoints without a service while the gateway is dead. An
    address whose hostname is the service's own name has the mirror itself as its endpoint mirror: the first
    such address gives the mirror gateway endpoints, the second finds them there and rolls the mirror back. */
module HeadlessOrphans {
  import opened Strings
  import opened Kubernetes
  import opened Mirror
  import opened Api
  import opened HeadlessMirror
  import opened Handlers
  import opened Effects
  import opened Crashes

  type State = Api.State

  /* ---------- the guard ---------- */

  /** The calls through which an address of the service's own name works on the mirror itself go through. */
  predicate Toggles(cfg: Config, env: Env, namespaces: set<string>, src: Source) {
    var mk := MirrorKey(cfg.link, src.key);
    && ResolveGateway(cfg.link, env.lookup).Some? && EndpointPorts(cfg.link, src.svc.ports).Some?
    && src.key.ns in namespaces
    && env.ok(CreateServiceCall(mk)) && env.ok(CreateEndpointsCall(mk)) && env.ok(DeleteServiceCall(mk))
  }

  predicate EvenAndSome(n: nat) {
    n > 0 && n % 2 == 0
  }

  predicate LeavesOrphan(cfg: Config, remote: Remote, env: Env, st: State, k: Key, exported: Endpoints) {
    && CreatesEndpoints(cfg, remote, env, st, k)
    && Toggles(cfg, env, EnsuredNamespaces(cfg, env, st, k), Source(k, remote.services[k], exported.version))
    && EvenAndSome(Bearing(ReadyAddresses(exported.subsets), k.name))
    && !MeetsNil(cfg, remote, env, st, k, exported)
  }

  /* ---------- what happens to the mirror along the loops ---------- */

  /** The mirror's service and endpoints after n addresses of its own name. */
  predicate AfterSelf(st: State, mk: Key, n: nat) {
    if n == 0 then mk in st.services && mk !in st.endpoints
    else if n % 2 == 1 then mk in st.services && mk in st.endpoints
    else mk !in st.services && mk !in st.endpoints
  }

  lemma SelfIsMirror(cfg: Config, src: Source, host: string)
    ensures HostKey(cfg, src, host) == MirrorKey(cfg.link, src.key) <==> host == src.key.name
  {
    var j := Key(src.key.ns, host);
    assert HostKey(cfg, src, host) == MirrorKey(cfg.link, j);
    if HostKey(cfg, src, host) == MirrorKey(cfg.link, src.key) {
      MirrorKeyInjective(cfg.link, j, src.key);
    }
  }

  lemma OneToggles(cfg: Config, env: Env, st: State, src: Source, host: string, n: nat)
    requires Toggles(cfg, env, st.namespaces, src) && AfterSelf(st, MirrorKey(cfg.link, src.key), n)
    ensures var made := CreateEndpointMirror(cfg, env, st, src, host); var mk := MirrorKey(cfg.link, src.key);
            && made.st.namespaces == st.namespaces
            && AfterSelf(made.st, mk, if host == src.key.name then n + 1 else n)
            && (host == src.key.name && n == 0 ==> made.outcome == Done)
  {
    hide CreateEndpointMirror, MirrorKey, Toggles;
    if host == src.key.name {
      SelfToggles(cfg, env, st, src, n);
    } else {
      OtherHostKeeps(cfg, env, st, src, host);
    }
  }

  lemma SelfToggles(cfg: Config, env: Env, st: State, src: Source, n: nat)
    requires Toggles(cfg, env, st.namespaces, src) && AfterSelf(st, MirrorKey(cfg.link, src.key), n)
    ensures var made := CreateEndpointMirror(cfg, env, st, src, src.key.name); var mk := MirrorKey(cfg.link, src.key);
            made.st.namespaces == st.namespaces && AfterSelf(made.st, mk, n + 1) && (n == 0 ==> made.outcome == Done)
  {
    hide ResolveGateway, EndpointPorts, NewEndpointMirror, NewEndpointMirrorEndpoints, ByLiveness, Stamp, HostKey;
    hide MirrorKey;
    SelfIsMirror(cfg, src, src.key.name);
    assert MirrorKey(cfg.link, src.key).ns == src.key.ns by { SameNamespace(cfg, src.key); }
  }

  lemma OtherHostKeeps(cfg: Config, env: Env, st: State, src: Source, host: string)
    requires host != src.key.name
    ensures SamePresence(st, CreateEndpointMirror(cfg, env, st, src, host).st, MirrorKey(cfg.link, src.key))
  {
    hide CreateEndpointMirror, MirrorKey, HostKey;
    SelfIsMirror(cfg, src, host);
    MakingElsewhere(cfg, env, st, src, host, MirrorKey(cfg.link, src.key));
  }

  lemma {:induction false} AddressesToggle(cfg: Config, env: Env, src: Source, addresses: seq<Address>,
                                           acc: Sync<Address>, n: nat)
    requires Toggles(cfg, env, acc.st.namespaces, src) && AfterSelf(acc.st, MirrorKey(cfg.link, src.key), n)
    requires acc.outcome == Done
    requires MakeAddresses(cfg, env, src, addresses, acc).outcome == Done
    ensures var r := MakeAddresses(cfg, env, src, addresses, acc); var more := Bearing(addresses, src.key.name);
            && r.st.namespaces == acc.st.namespaces
            && AfterSelf(r.st, MirrorKey(cfg.link, src.key), n + more)
            && |acc.out| <= |r.out|
            && (n == 0 && more > 0 ==> r.out != [])
    decreases |addresses|
  {
    hide CreateEndpointMirror, MirrorKey, Toggles, AfterSelf;
    if addresses != [] {
      var a := addresses[0];
      var next := MakeAddress(cfg, env, src, a, acc);
      OneToggles(cfg, env, acc.st, src, a.hostname, n);
      assert next.outcome == Done by { StoppedStays(cfg, env, src, addresses[1..], next); }
      AddressesToggle(cfg, env, src, addresses[1..], next, if Named(a) && a.hostname == src.key.name then n + 1 else n);
    }
  }

  lemma StoppedStays(cfg: Config, env: Env, src: Source, addresses: seq<Address>, acc: Sync<Address>)
    ensures acc.outcome != Done ==> MakeAddresses(cfg, env, src, addresses, acc) == acc
  {
    hide MakeAddress;
  }

  lemma {:induction false} SubsetsToggle(cfg: Config, env: Env, src: Source, subsets: seq<Subset>, acc: Sync<Subset>,
                                         n: nat)
    requires Toggles(cfg, env, acc.st.namespaces, src) && AfterSelf(acc.st, MirrorKey(cfg.link, src.key), n)
    requires acc.outcome == Done
    requires MakeSubsets(cfg, env, src, subsets, acc).outcome == Done && (n > 0 ==> HasReady(acc.out))
    ensures var r := MakeSubsets(cfg, env, src, subsets, acc);
            var total := n + Bearing(ReadyAddresses(subsets), src.key.name);
            && r.st.namespaces == acc.st.namespaces
            && AfterSelf(r.st, MirrorKey(cfg.link, src.key), total)
            && (total > 0 ==> HasReady(r.out))
    decreases |subsets|
  {
    hide MakeAddresses, MirrorKey, Toggles, AfterSelf, HasReady;
    if subsets != [] {
      var s := subsets[0];
      var next := MakeSubset(cfg, env, src, s, acc);
      assert next.outcome == Done by { StoppedSubsetStays(cfg, env, src, subsets[1..], next); }
      AddressesToggle(cfg, env, src, s.addresses, Sync(acc.st, {}, [], Done), n);
      var more := Bearing(s.addresses, src.key.name);
      BearingAppends(s.addresses, ReadyAddresses(subsets[1..]), src.key.name);
      if n + more > 0 {
        ReadyGrows(acc.out, next.out);
      }
      SubsetsToggle(cfg, env, src, subsets[1..], next, n + more);
    }
  }

  lemma StoppedSubsetStays(cfg: Config, env: Env, src: Source, subsets: seq<Subset>, acc: Sync<Subset>)
    ensures acc.outcome != Done ==> MakeSubsets(cfg, env, src, subsets, acc) == acc
  {
    hide MakeSubset;
  }

  lemma ReadyGrows(before: seq<Subset>, after: seq<Subset>)
    requires (after == before && HasReady(before)) ||
             (|after| == |before| + 1 && after[..|before|] == before && after[|before|].addresses != [])
    ensures HasReady(after)
  {
  }

  /** If the endpoints could be created but some other call on the mirror fails, the mirror is never rolled back. */
  lemma OneKeeps(cfg: Config, env: Env, st: State, src: Source, host: string)
    requires var mk := MirrorKey(cfg.link, src.key);
             env.ok(CreateEndpointsCall(mk)) && src.key.ns in st.namespaces && mk in st.services
    requires !Toggles(cfg, env, st.namespaces, src)
    ensures var made := CreateEndpointMirror(cfg, env, st, src, host);
            MirrorKey(cfg.link, src.key) in made.st.services && made.st.namespaces == st.namespaces
  {
    hide CreateEndpointMirror, MirrorKey;
    if host == src.key.name {
      SelfKeeps(cfg, env, st, src);
    } else {
      OtherHostKeeps(cfg, env, st, src, host);
    }
  }

  lemma SelfKeeps(cfg: Config, env: Env, st: State, src: Source)
    requires var mk := MirrorKey(cfg.link, src.key);
             env.ok(CreateEndpointsCall(mk)) && src.key.ns in st.namespaces && mk in st.services
    requires !Toggles(cfg, env, st.namespaces, src)
    ensures var made := CreateEndpointMirror(cfg, env, st, src, src.key.name);
            MirrorKey(cfg.link, src.key) in made.st.services && made.st.namespaces == st.namespaces
  {
    hide ResolveGateway, EndpointPorts, NewEndpointMirror, NewEndpointMirrorEndpoints, ByLiveness, Stamp, HostKey;
    hide MirrorKey;
    SelfIsMirror(cfg, src, src.key.name);
  }

  lemma {:induction false} AddressesKeep(cfg: Config, env: Env, src: Source, addresses: seq<Address>,
                                         acc: Sync<Address>)
    requires var mk := MirrorKey(cfg.link, src.key);
             env.ok(CreateEndpointsCall(mk)) && src.key.ns in acc.st.namespaces && mk in acc.st.services
    requires !Toggles(cfg, env, acc.st.namespaces, src)
    ensures var r := MakeAddresses(cfg, env, src, addresses, acc);
            MirrorKey(cfg.link, src.key) in r.st.services && r.st.namespaces == acc.st.namespaces
    decreases |addresses|
  {
    hide CreateEndpointMirror, MirrorKey, Toggles;
    if addresses != [] && acc.outcome == Done {
      OneKeeps(cfg, env, acc.st, src, addresses[0].hostname);
      AddressesKeep(cfg, env, src, addresses[1..], MakeAddress(cfg, env, src, addresses[0], acc));
    }
  }

  lemma {:induction false} SubsetsKeep(cfg: Config, env: Env, src: Source, subsets: seq<Subset>, acc: Sync<Subset>)
    requires var mk := MirrorKey(cfg.link, src.key);
             env.ok(CreateEndpointsCall(mk)) && src.key.ns in acc.st.namespaces && mk in acc.st.services
    requires !Toggles(cfg, env, acc.st.namespaces, src)
    ensures MirrorKey(cfg.link, src.key) in MakeSubsets(cfg, env, src, subsets, acc).st.services
    decreases |subsets|
  {
    hide MakeAddresses, MirrorKey, Toggles;
    if subsets != [] && acc.outcome == Done {
      AddressesKeep(cfg, env, src, subsets[0].addresses, Sync(acc.st, {}, [], Done));
      SubsetsKeep(cfg, env, src, subsets[1..], MakeSubset(cfg, env, src, subsets[0], acc));
    }
  }

  /* ---------- the last call ---------- */

  /** Ready endpoints created for a dead gateway: harmless exactly if a service is there to take them. */
  lemma LastCall(cfg: Config, env: Env, st: State, k: Key, ep: Endpoints)
    requires var mk := MirrorKey(cfg.link, k);
             !st.gatewayAlive && Guarded(cfg, st) && Settled(env, st, mk)
             && (mk !in st.services ==> HasReady(ep.subsets))
    requires CreateEndpoints(env, st, MirrorKey(cfg.link, k), ep).1 == Ok
    ensures Guarded(cfg, CreateEndpoints(env, st, MirrorKey(cfg.link, k), ep).0) <==>
              MirrorKey(cfg.link, k) in st.services
  {
    hide MirrorNamed, OfLink, HasReady, Discoverable, MirrorKey;
    var mk := MirrorKey(cfg.link, k);
    var post := CreateEndpoints(env, st, mk, ep).0;
    if mk in st.services {
      forall n | ReadyAt(post, n) ensures !Exposed(cfg, post, n) && !Orphaned(cfg, post, n) {
        if n != mk { assert ReadyAt(st, n); }
      }
    } else {
      MirrorIsShaped(cfg, k, map[]);
      assert ReadyAt(post, mk) && Orphaned(cfg, post, mk);
    }
  }

  lemma CreatedEndpointsOrphan(cfg: Config, env: Env, st: State, src: Source, exported: Endpoints)
    requires !st.gatewayAlive && Guarded(cfg, st)
    requires var mk := MirrorKey(cfg.link, src.key);
             mk in st.services && Headless(st.services[mk]) && mk !in st.endpoints
    ensures var (post, outcome) := CreateHeadlessEndpoints(cfg, env, st, src, exported);
            Guarded(cfg, post) <==>
              !(Toggles(cfg, env, st.namespaces, src)
                && EvenAndSome(Bearing(ReadyAddresses(exported.subsets), src.key.name))
                && !Dereferences(cfg, env, st.namespaces, st.endpoints.Keys, src, [], ReadyAddresses(exported.subsets)))
  {
    hide Guarded, MakeSubsets, MirrorKey, Toggles, Settled, EndpointLabels, GatewayAnnotations, FqName, HasReady, Good;
    hide DeleteService, Dereferences;
    CreatingCrashes(cfg, env, st, src, exported);
    var start := Sync<Subset>.Sync(st, {}, [], Done);
    var mk, n := MirrorKey(cfg.link, src.key), Bearing(ReadyAddresses(exported.subsets), src.key.name);
    var r := MakeSubsets(cfg, env, src, exported.subsets, start);
    SubsetsEnd(cfg, env, src, exported.subsets, start);
    assert mk.ns == src.key.ns by { SameNamespace(cfg, src.key); }
    assert Guarded(cfg, r.st) && !r.st.gatewayAlive by {
      MakeSubsetsGood(cfg, env, src, exported.subsets, start);
      GoodKeepsGuard(cfg, st, r.st);
    }
    if r.outcome == Done {
      LoopsDecide(cfg, env, st, src, exported.subsets);
      assert Settled(env, r.st, mk) by {
        assert Settled(env, st, mk) by { HeadlessIsSettled(env, st, mk); }
        MakeSubsetsSettle(cfg, env, src, exported.subsets, start, mk);
      }
      var ep := Endpoints(EndpointLabels(cfg.link, src.svc.labels),
                          GatewayAnnotations(cfg.link, FqName(cfg.link, src.key)), r.out, 0);
      if CreateEndpoints(env, r.st, mk, ep).1 == Ok {
        LastCall(cfg, env, r.st, src.key, ep);
      } else {
        DeleteServiceGood(cfg, env, r.st, mk);
        GoodKeepsGuard(cfg, r.st, DeleteService(env, r.st, mk).0);
        if Toggles(cfg, env, st.namespaces, src) {
          TogglesCreate(cfg, env, st.namespaces, src);
        }
      }
    }
  }

  lemma HeadlessIsSettled(env: Env, st: State, mk: Key)
    requires mk in st.services ==> Headless(st.services[mk])
    ensures Settled(env, st, mk)
  {
  }

  lemma TogglesCreate(cfg: Config, env: Env, namespaces: set<string>, src: Source)
    requires Toggles(cfg, env, namespaces, src)
    ensures var mk := MirrorKey(cfg.link, src.key);
            env.ok(CreateServiceCall(mk)) && env.ok(CreateEndpointsCall(mk)) && src.key.ns in namespaces
  {
    hide ResolveGateway, EndpointPorts;
  }

  lemma GoodKeepsGuard(cfg: Config, pre: State, post: State)
    requires Good(cfg, pre, post) && !pre.gatewayAlive && Guarded(cfg, pre)
    ensures Guarded(cfg, post) && !post.gatewayAlive
  {
    hide ShapeOk, Guarded;
  }

  /** Whether the mirror's service is gone when its endpoints are about to be created. */
  lemma LoopsDecide(cfg: Config, env: Env, st: State, src: Source, subsets: seq<Subset>)
    requires var mk := MirrorKey(cfg.link, src.key); mk in st.services && mk !in st.endpoints
    requires MakeSubsets(cfg, env, src, subsets, Sync(st, {}, [], Done)).outcome == Done
    ensures var r := MakeSubsets(cfg, env, src, subsets, Sync(st, {}, [], Done));
            var mk := MirrorKey(cfg.link, src.key);
            var doubled := Toggles(cfg, env, st.namespaces, src)
                           && EvenAndSome(Bearing(ReadyAddresses(subsets), src.key.name));
            && (doubled ==> mk !in r.st.services && mk !in r.st.endpoints && HasReady(r.out))
            && (!doubled && env.ok(CreateEndpointsCall(mk)) && src.key.ns in st.namespaces && mk !in r.st.endpoints ==>
                  mk in r.st.services)
  {
    hide MakeSubsets, MirrorKey, Toggles, HasReady;
    var start := Sync<Subset>.Sync(st, {}, [], Done);
    if Toggles(cfg, env, st.namespaces, src) {
      SubsetsToggle(cfg, env, src, subsets, start, 0);
    } else if env.ok(CreateEndpointsCall(MirrorKey(cfg.link, src.key))) && src.key.ns in st.namespaces {
      SubsetsKeep(cfg, env, src, subsets, start);
    }
  }

  /* ---------- the whole event ---------- */

  /** While the gateway is dead, a headless endpoints event leaves orphaned endpoints exactly when it creates
      the endpoints of a headless mirror, a positive even number of the ready addresses bear the service's own
      name, the calls on the mirror go through, and it meets no nil target. */
  lemma HeadlessEventOrphans(cfg: Config, remote: Remote, env: Env, st: State, k: Key, exported: Endpoints)
    requires !st.gatewayAlive && Guarded(cfg, st)
    ensures Guarded(cfg, HandleHeadless(cfg, remote, env, st, k, exported).0) <==>
              !LeavesOrphan(cfg, remote, env, st, k, exported)
  {
    hide Guarded, MirrorKey, CreateHeadlessService, CreateGatewayEndpoints, CreateHeadlessEndpoints, SyncHeadless;
    hide Toggles, Good, Dereferences, EnsureNamespace, ExportsAsHeadless;
    var mk := MirrorKey(cfg.link, k);
    if env.ok(RemoteGetService(k)) && k in remote.services && remote.services[k].ports != [] && env.ok(GetService(mk)) {
      var src := Source(k, remote.services[k], exported.version);
      var made := if mk in st.services then Created(st, st.services[mk].clusterIP, Done)
                  else CreateHeadlessService(cfg, env, st, src, exported);
      MadeHeadless(cfg, env, st, src, exported);
      if Toggles(cfg, env, EnsuredNamespaces(cfg, env, st, k), src) {
        TogglesCreate(cfg, env, EnsuredNamespaces(cfg, env, st, k), src);
      }
      if Bearing(ReadyAddresses(exported.subsets), k.name) > 0 {
        SelfNamedExports(k.name, exported);
      }
      assert Guarded(cfg, made.st) && !made.st.gatewayAlive by {
        CreateHeadlessServiceGood(cfg, env, st, src, exported);
        if mk !in st.services { GoodKeepsGuard(cfg, st, made.st); }
      }
      if made.outcome == Done && env.ok(GetEndpoints(mk)) {
        if mk in made.st.endpoints {
          SyncHeadlessGood(cfg, env, made.st, src, exported, made.st.endpoints[mk]);
          GoodKeepsGuard(cfg, made.st, SyncHeadless(cfg, env, made.st, src, exported, made.st.endpoints[mk]).0);
        } else if made.ip != CLUSTER_IP_NONE {
          GatewayEndpointsGood(cfg, remote, env, made.st, k, src.svc);
          GoodKeepsGuard(cfg, made.st, CreateGatewayEndpoints(cfg, remote, env, made.st, k, src.svc).0);
        } else {
          CreatedEndpointsOrphan(cfg, env, made.st, src, exported);
        }
      }
    }
  }

  /** What making the mirror service of a headless service comes to, as far as the guard speaks of it. */
  lemma MadeHeadless(cfg: Config, env: Env, st: State, src: Source, exported: Endpoints)
    ensures var made := CreateHeadlessService(cfg, env, st, src, exported); var mk := MirrorKey(cfg.link, src.key);
            && made.st.endpoints == st.endpoints
            && (made.ip == CLUSTER_IP_NONE ==>
                  && EnsureNamespace(cfg, env, st, src.key.ns).1 == Present
                  && made.st.namespaces == EnsureNamespace(cfg, env, st, src.key.ns).0.namespaces
                  && mk in made.st.services && Headless(made.st.services[mk]))
            && (mk !in st.services && EnsureNamespace(cfg, env, st, src.key.ns).1 == Present ==>
                  env.ok(CreateServiceCall(mk)) && Bearing(ReadyAddresses(exported.subsets), src.key.name) > 0 ==>
                    made.outcome == Done && made.ip == CLUSTER_IP_NONE)
  {
    hide MirrorKey, MirrorLabels, MirrorAnnotations, RemapPorts, ExportsAsHeadless, EnsureNamespace, Bearing;
    EnsureNamespaceFacts(cfg, env, st, src.key.ns);
    assert MirrorKey(cfg.link, src.key).ns == src.key.ns by { SameNamespace(cfg, src.key); }
    if Bearing(ReadyAddresses(exported.subsets), src.key.name) > 0 {
      SelfNamedExports(src.key.name, exported);
    }
  }

  lemma SelfNamedExports(name: string, exported: Endpoints)
    requires Bearing(ReadyAddresses(exported.subsets), name) > 0
    ensures exported.subsets != [] && ExportsAsHeadless(exported)
  {
    var i := SelfNamedSubset(name, exported.subsets);
    var j := SelfNamedAddress(name, exported.subsets[i].addresses);
  }

  lemma {:induction false} SelfNamedSubset(name: string, subsets: seq<Subset>) returns (i: nat)
    requires Bearing(ReadyAddresses(subsets), name) > 0
    ensures i < |subsets| && Bearing(subsets[i].addresses, name) > 0
  {
    BearingAppends(subsets[0].addresses, ReadyAddresses(subsets[1..]), name);
    if Bearing(subsets[0].addresses, name) > 0 {
      i := 0;
    } else {
      i := SelfNamedSubset(name, subsets[1..]);
      i := i + 1;
    }
  }

  lemma {:induction false} SelfNamedAddress(name: string, addresses: seq<Address>) returns (i: nat)
    requires Bearing(addresses, name) > 0
    ensures i < |addresses| && Named(addresses[i])
  {
    if Named(addresses[0]) {
      i := 0;
    } else {
      i := SelfNamedAddress(name, addresses[1..]);
      i := i + 1;
    }
  }

  /* ---------- such an event ---------- */

  /** Two addresses of the service's own name, of two pods, are enough: the headless mirror is created, rolled back
      by its second endpoint mirror, and its ready endpoints are then created without it. */
  lemma TwoOfOneNameOrphan(cfg: Config, remote: Remote, env: Env, st: State, ev: Event, s: Subset, a: Address,
                           b: Address)
    requires ev.OnAddEndpoints? || ev.OnUpdateEndpoints?
    requires PassesFilter(cfg.link, ev) && IsHeadlessEndpoints(ev.ep) && ev.ep.subsets == [s] && s.addresses == [a, b]
    requires a.hostname == b.hostname == ev.key.name != "" && a.targetRef.Some? && b.targetRef.Some?
    requires a.ip != b.ip && a.targetRef != b.targetRef
    requires CreatesEndpoints(cfg, remote, env, st, ev.key)
    requires Toggles(cfg, env, EnsuredNamespaces(cfg, env, st, ev.key),
                     Source(ev.key, remote.services[ev.key], ev.ep.version))
    ensures LeavesOrphan(cfg, remote, env, st, ev.key, ev.ep)
  {
    hide Toggles, MirrorKey, EnsureNamespace, MadeAfter, PassesFilter, CreatesEndpoints, EnsuredNamespaces;
    assert ReadyAddresses([s][1..]) == [] && ReadyAddresses([s]) == [a, b];
    assert [a, b][1..] == [b] && Bearing([b][1..], a.hostname) == 0 && Bearing([a, b], a.hostname) == 2;
  }
}
