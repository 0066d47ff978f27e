/** The diff-sync of an existing headless mirror: what a successful endpoints event leaves behind. */
module DiffSync {
  import opened Strings
  import opened Kubernetes
  import opened Mirror
  import opened Api
  import opened HeadlessMirror

  type State = Api.State

  /* ---------- the specification ---------- */

  predicate HasHost(cfg: Config, src: Source, services: map<Key, Service>, a: Address) {
    HostKey(cfg, src, a.hostname) in services
  }

  predicate Hosted(cfg: Config, src: Source, services: map<Key, Service>, addresses: seq<Address>) {
    forall a :: a in addresses && Named(a) ==> HasHost(cfg, src, services, a)
  }

  /** The named addresses in order, each with the cluster IP of its endpoint mirror. */
  function Hosts(cfg: Config, src: Source, services: map<Key, Service>, addresses: seq<Address>): seq<Address>
    requires Hosted(cfg, src, services, addresses)
  {
    if addresses == [] then []
    else
      var rest := Hosts(cfg, src, services, addresses[1..]);
      var a := addresses[0];
      assert Named(a) ==> HasHost(cfg, src, services, a);
      if Named(a) then [Address(services[HostKey(cfg, src, a.hostname)].clusterIP, a.hostname, None)] + rest else rest
  }

  ghost predicate AllHosted(cfg: Config, src: Source, services: map<Key, Service>, subsets: seq<Subset>) {
    forall s :: s in subsets ==> Hosted(cfg, src, services, s.addresses)
  }

  /** The exported subsets without their unnamed addresses, and without the subsets that leaves empty. */
  ghost function HostSubsets(cfg: Config, src: Source, services: map<Key, Service>, subsets: seq<Subset>): seq<Subset>
    requires AllHosted(cfg, src, services, subsets)
  {
    if subsets == [] then []
    else
      var s := subsets[0];
      assert s in subsets;
      var hosts := Hosts(cfg, src, services, s.addresses);
      (if hosts == [] then [] else [Subset(hosts, [], s.ports)]) + HostSubsets(cfg, src, services, subsets[1..])
  }

  /** The names of the endpoint mirrors that the exported addresses ask for. */
  function HostNames(cfg: Config, addresses: seq<Address>): set<string> {
    set a | a in addresses && Named(a) :: MirrorName(cfg.link, a.hostname)
  }

  function WantedNames(cfg: Config, subsets: seq<Subset>): set<string> {
    set s, a | s in subsets && a in s.addresses && Named(a) :: MirrorName(cfg.link, a.hostname)
  }

  /** The loops only add objects. */
  ghost predicate Grows(pre: State, post: State) {
    && post == pre.(services := post.services, endpoints := post.endpoints)
    && (forall n :: n in pre.services ==> n in post.services && post.services[n] == pre.services[n])
    && (forall n :: n in pre.endpoints ==> n in post.endpoints && post.endpoints[n] == pre.endpoints[n])
  }

  lemma GrowsTransitive(a: State, b: State, c: State)
    requires Grows(a, b) && Grows(b, c)
    ensures Grows(a, c)
  {
  }

  /** The endpoint mirrors that these addresses need are the same in both. */
  ghost predicate SameHosts(cfg: Config, src: Source, a: map<Key, Service>, b: map<Key, Service>,
                            addresses: seq<Address>) {
    forall x :: x in addresses && Named(x) && HasHost(cfg, src, a, x) ==>
      HasHost(cfg, src, b, x) && b[HostKey(cfg, src, x.hostname)] == a[HostKey(cfg, src, x.hostname)]
  }

  lemma {:induction false} HostsDependOn(cfg: Config, src: Source, a: map<Key, Service>, b: map<Key, Service>,
                                         addresses: seq<Address>)
    requires Hosted(cfg, src, a, addresses) && SameHosts(cfg, src, a, b, addresses)
    ensures Hosted(cfg, src, b, addresses)
    ensures Hosts(cfg, src, b, addresses) == Hosts(cfg, src, a, addresses)
  {
    hide HostKey;
    if addresses != [] {
      assert addresses[0] in addresses;
      HostsDependOn(cfg, src, a, b, addresses[1..]);
    }
  }

  lemma {:induction false} HostSubsetsDependOn(cfg: Config, src: Source, a: map<Key, Service>, b: map<Key, Service>,
                                               subsets: seq<Subset>)
    requires AllHosted(cfg, src, a, subsets)
    requires forall s :: s in subsets ==> SameHosts(cfg, src, a, b, s.addresses)
    ensures AllHosted(cfg, src, b, subsets)
    ensures HostSubsets(cfg, src, b, subsets) == HostSubsets(cfg, src, a, subsets)
  {
    hide Hosted, Hosts, SameHosts;
    forall s | s in subsets ensures Hosted(cfg, src, b, s.addresses) {
      HostsDependOn(cfg, src, a, b, s.addresses);
    }
    if subsets != [] {
      assert subsets[0] in subsets;
      HostsDependOn(cfg, src, a, b, subsets[0].addresses);
      HostSubsetsDependOn(cfg, src, a, b, subsets[1..]);
    }
  }

  lemma GrowsKeepsHosts(cfg: Config, src: Source, pre: State, post: State, addresses: seq<Address>)
    requires Grows(pre, post)
    ensures SameHosts(cfg, src, pre.services, post.services, addresses)
  {
    hide HostKey;
  }

  lemma HostsOf(cfg: Config, src: Source, services: map<Key, Service>, addresses: seq<Address>)
    requires addresses != [] && Hosted(cfg, src, services, [addresses[0]]) && Hosted(cfg, src, services, addresses[1..])
    ensures Hosted(cfg, src, services, addresses)
    ensures Hosts(cfg, src, services, addresses)
         == Hosts(cfg, src, services, [addresses[0]]) + Hosts(cfg, src, services, addresses[1..])
  {
    hide HasHost, HostKey;
    assert addresses == [addresses[0]] + addresses[1..];
    assert Hosts(cfg, src, services, [addresses[0]][1..]) == [];
  }

  lemma HostNamesOf(cfg: Config, addresses: seq<Address>)
    requires addresses != []
    ensures HostNames(cfg, addresses) == HostNames(cfg, [addresses[0]]) + HostNames(cfg, addresses[1..])
  {
    hide MirrorName;
    assert addresses == [addresses[0]] + addresses[1..];
  }

  lemma HostSubsetsOf(cfg: Config, src: Source, services: map<Key, Service>, subsets: seq<Subset>)
    requires subsets != [] && AllHosted(cfg, src, services, [subsets[0]]) && AllHosted(cfg, src, services, subsets[1..])
    ensures AllHosted(cfg, src, services, subsets)
    ensures HostSubsets(cfg, src, services, subsets)
         == HostSubsets(cfg, src, services, [subsets[0]]) + HostSubsets(cfg, src, services, subsets[1..])
  {
    hide Hosts, Hosted;
    assert subsets == [subsets[0]] + subsets[1..];
    assert HostSubsets(cfg, src, services, [subsets[0]][1..]) == [];
  }

  lemma WantedNamesOf(cfg: Config, subsets: seq<Subset>)
    requires subsets != []
    ensures WantedNames(cfg, subsets) == HostNames(cfg, subsets[0].addresses) + WantedNames(cfg, subsets[1..])
  {
    hide Named, MirrorName;
    assert subsets == [subsets[0]] + subsets[1..];
  }

  /* ---------- the loops ---------- */

  lemma CreatedGrows(cfg: Config, env: Env, st: State, src: Source, host: string)
    requires ValidEnv(env) && HostKey(cfg, src, host) !in st.services
    requires CreateEndpointMirror(cfg, env, st, src, host).outcome == Done
    ensures var made, k := CreateEndpointMirror(cfg, env, st, src, host), HostKey(cfg, src, host);
            && Grows(st, made.st)
            && k in made.st.services && made.st.services[k].clusterIP == made.ip
            && made.st.services == st.services[k := made.st.services[k]]
            && made.st.services[k].labels == EndpointMirrorLabels(cfg, src)
  {
    hide HostKey, ResolveGateway, EndpointPorts, EndpointMirrorLabels, RemapPorts, FormatNat, EndpointMirrorFqName;
    hide NewEndpointMirrorEndpoints, Readiness;
  }

  lemma AddressSynced(cfg: Config, env: Env, src: Source, a: Address, acc: Sync<Address>)
    requires ValidEnv(env) && acc.outcome == Done && SyncAddress(cfg, env, src, a, acc).outcome == Done
    ensures var r := SyncAddress(cfg, env, src, a, acc);
            && Grows(acc.st, r.st)
            && r.wanted == acc.wanted + HostNames(cfg, [a])
            && Hosted(cfg, src, r.st.services, [a])
            && r.out == acc.out + Hosts(cfg, src, r.st.services, [a])
  {
    hide MirrorName, CreateEndpointMirror;
    if Named(a) {
      assert HostNames(cfg, [a]) == {HostKey(cfg, src, a.hostname).name};
      if HostKey(cfg, src, a.hostname) !in acc.st.services {
        CreatedGrows(cfg, env, acc.st, src, a.hostname);
      }
    } else {
      assert HostNames(cfg, [a]) == {};
    }
  }

  lemma {:induction false} FailedStays(cfg: Config, env: Env, src: Source, addresses: seq<Address>, acc: Sync<Address>)
    requires SyncAddresses(cfg, env, src, addresses, acc).outcome == Done
    ensures acc.outcome == Done
  {
    hide SyncAddress;
    if addresses != [] && acc.outcome == Done {
      FailedStays(cfg, env, src, addresses[1..], SyncAddress(cfg, env, src, addresses[0], acc));
    }
  }

  lemma {:induction false} AddressesSynced(cfg: Config, env: Env, src: Source, addresses: seq<Address>,
                                           acc: Sync<Address>)
    requires ValidEnv(env) && SyncAddresses(cfg, env, src, addresses, acc).outcome == Done
    ensures var r := SyncAddresses(cfg, env, src, addresses, acc);
            && Grows(acc.st, r.st)
            && r.wanted == acc.wanted + HostNames(cfg, addresses)
            && Hosted(cfg, src, r.st.services, addresses)
            && r.out == acc.out + Hosts(cfg, src, r.st.services, addresses)
    decreases |addresses|
  {
    hide SyncAddress, ValidEnv, Hosts, Hosted, HostNames, Grows;
    FailedStays(cfg, env, src, addresses, acc);
    if addresses == [] {
      NothingSynced(cfg, src, acc.st);
    } else {
      var a, rest := addresses[0], addresses[1..];
      var mid := SyncAddress(cfg, env, src, a, acc);
      var r := SyncAddresses(cfg, env, src, rest, mid);
      FailedStays(cfg, env, src, rest, mid);
      AddressSynced(cfg, env, src, a, acc);
      AddressesSynced(cfg, env, src, rest, mid);
      GrowsTransitive(acc.st, mid.st, r.st);
      GrowsKeepsHosts(cfg, src, mid.st, r.st, [a]);
      HostsDependOn(cfg, src, mid.st.services, r.st.services, [a]);
      HostsOf(cfg, src, r.st.services, addresses);
      HostNamesOf(cfg, addresses);
    }
  }

  lemma NothingSynced(cfg: Config, src: Source, st: State)
    ensures Grows(st, st) && Hosted(cfg, src, st.services, []) && AllHosted(cfg, src, st.services, [])
    ensures Hosts(cfg, src, st.services, []) == [] && HostSubsets(cfg, src, st.services, []) == []
    ensures HostNames(cfg, []) == {} && WantedNames(cfg, []) == {}
  {
  }

  lemma SubsetSynced(cfg: Config, env: Env, src: Source, s: Subset, acc: Sync<Subset>)
    requires ValidEnv(env) && acc.outcome == Done && SyncSubset(cfg, env, src, s, acc).outcome == Done
    ensures var r := SyncSubset(cfg, env, src, s, acc);
            && Grows(acc.st, r.st)
            && r.wanted == acc.wanted + HostNames(cfg, s.addresses)
            && AllHosted(cfg, src, r.st.services, [s])
            && r.out == acc.out + HostSubsets(cfg, src, r.st.services, [s])
  {
    hide SyncAddresses, ValidEnv, Hosts, HostNames, Hosted, Grows;
    AddressesSynced(cfg, env, src, s.addresses, Sync(acc.st, acc.wanted, [], Done));
    var inner := SyncAddresses(cfg, env, src, s.addresses, Sync(acc.st, acc.wanted, [], Done));
    var r := SyncSubset(cfg, env, src, s, acc);
    var hosts := Hosts(cfg, src, r.st.services, s.addresses);
    assert inner.out == hosts;
    assert AllHosted(cfg, src, r.st.services, [s]);
    assert HostSubsets(cfg, src, r.st.services, [s][1..]) == [];
    assert HostSubsets(cfg, src, r.st.services, [s]) == if hosts == [] then [] else [Subset(hosts, [], s.ports)];
  }

  lemma {:induction false} FailedSubsetStays(cfg: Config, env: Env, src: Source, subsets: seq<Subset>,
                                             acc: Sync<Subset>)
    requires SyncSubsets(cfg, env, src, subsets, acc).outcome == Done
    ensures acc.outcome == Done
  {
    hide SyncSubset;
    if subsets != [] && acc.outcome == Done {
      FailedSubsetStays(cfg, env, src, subsets[1..], SyncSubset(cfg, env, src, subsets[0], acc));
    }
  }

  lemma {:induction false} SubsetsSynced(cfg: Config, env: Env, src: Source, subsets: seq<Subset>, acc: Sync<Subset>)
    requires ValidEnv(env) && SyncSubsets(cfg, env, src, subsets, acc).outcome == Done
    ensures var r := SyncSubsets(cfg, env, src, subsets, acc);
            && Grows(acc.st, r.st)
            && r.wanted == acc.wanted + WantedNames(cfg, subsets)
            && AllHosted(cfg, src, r.st.services, subsets)
            && r.out == acc.out + HostSubsets(cfg, src, r.st.services, subsets)
    decreases |subsets|
  {
    hide SyncSubset, ValidEnv, AllHosted, HostSubsets, HostNames, WantedNames, Grows;
    FailedSubsetStays(cfg, env, src, subsets, acc);
    if subsets == [] {
      NothingSynced(cfg, src, acc.st);
    } else {
      var s, rest := subsets[0], subsets[1..];
      var mid := SyncSubset(cfg, env, src, s, acc);
      var r := SyncSubsets(cfg, env, src, rest, mid);
      FailedSubsetStays(cfg, env, src, rest, mid);
      SubsetSynced(cfg, env, src, s, acc);
      SubsetsSynced(cfg, env, src, rest, mid);
      GrowsTransitive(acc.st, mid.st, r.st);
      GrowsKeepsHosts(cfg, src, mid.st, r.st, s.addresses);
      HostSubsetsDependOn(cfg, src, mid.st.services, r.st.services, [s]);
      HostSubsetsOf(cfg, src, r.st.services, subsets);
      WantedNamesOf(cfg, subsets);
    }
  }

  /* ---------- the theorem ---------- */

  /** What a successful diff-sync leaves behind. */
  ghost predicate Synced(cfg: Config, src: Source, exported: Endpoints, post: State) {
    var mk := MirrorKey(cfg.link, src.key);
    // every named address has its endpoint mirror
    && AllHosted(cfg, src, post.services, exported.subsets)
    // every service still labelled for this mirror is wanted
    && (forall n :: n in EndpointMirrorsOf(post, mk.name) ==> n.name in WantedNames(cfg, exported.subsets))
    // the mirror's endpoints are the exported ones, through the endpoint mirrors
    && mk in post.endpoints
    && post.endpoints[mk].subsets
         == Readiness(post.gatewayAlive, HostSubsets(cfg, src, post.services, exported.subsets))
  }

  lemma PurgeKeepsWanted(env: Env, st: State, mirrorName: string, wanted: set<string>)
    requires !exists k :: k in Unwanted(st, mirrorName, wanted) && !env.ok(DeleteServiceCall(k))
    ensures var post := Purge(env, st, Unwanted(st, mirrorName, wanted));
            && (forall n :: n in st.services && n.name in wanted ==> n in post.services)
            && (forall n :: n in post.services ==> n in st.services && post.services[n] == st.services[n])
            && (forall n :: n in EndpointMirrorsOf(post, mirrorName) ==> n.name in wanted)
            && (forall n :: n in st.services && n !in EndpointMirrorsOf(st, mirrorName) ==> n in post.services)
  {
    var unwanted := Unwanted(st, mirrorName, wanted);
    forall n | n in unwanted ensures env.ok(DeleteServiceCall(n)) {
    }
  }

  lemma DiffSynced(cfg: Config, env: Env, st: State, src: Source, exported: Endpoints, local: Endpoints)
    requires ValidEnv(env) && SyncHeadless(cfg, env, st, src, exported, local).1 == Done
    ensures var post := SyncHeadless(cfg, env, st, src, exported, local).0; var mk := MirrorKey(cfg.link, src.key);
            && Synced(cfg, src, exported, post)
            && post.endpoints[mk].labels == local.labels && post.endpoints[mk].annotations == local.annotations
            && (forall n :: n in st.services && n !in EndpointMirrorsOf(st, mk.name) ==>
                  n in post.services && post.services[n] == st.services[n])
  {
    hide SyncSubsets, MirrorName, ValidEnv, Hosts, HostSubsets, AllHosted, WantedNames, Readiness, EndpointMirrorsOf;
    hide Purge, Unwanted;
    var r := SyncSubsets(cfg, env, src, exported.subsets, Sync(st, {}, [], Done));
    SubsetsSynced(cfg, env, src, exported.subsets, Sync(st, {}, [], Done));
    var mk := MirrorKey(cfg.link, src.key);
    var st1 := Purge(env, r.st, Unwanted(r.st, mk.name, r.wanted));
    PurgeKeepsWanted(env, r.st, mk.name, r.wanted);
    PurgeKeepsLiveness(env, r.st, Unwanted(r.st, mk.name, r.wanted));
    WantedAreKept(cfg, src, r.st.services, st1.services, exported.subsets, r.wanted);
    var post := SyncHeadless(cfg, env, st, src, exported, local).0;
    assert r.wanted == WantedNames(cfg, exported.subsets);
    assert r.out == HostSubsets(cfg, src, r.st.services, exported.subsets);
    assert post.services == st1.services;
    MirrorsDependOnServices(st1, post, mk.name);
    forall n | n in st.services && n !in EndpointMirrorsOf(st, mk.name)
      ensures n in post.services && post.services[n] == st.services[n]
    {
      MirrorsAt(st, r.st, mk.name, n);
    }
  }

  lemma PurgeKeepsLiveness(env: Env, st: State, keys: set<Key>)
    ensures Purge(env, st, keys).gatewayAlive == st.gatewayAlive
  {
  }

  lemma MirrorsDependOnServices(a: State, b: State, name: string)
    requires a.services == b.services
    ensures EndpointMirrorsOf(a, name) == EndpointMirrorsOf(b, name)
  {
  }

  lemma MirrorsAt(a: State, b: State, name: string, n: Key)
    requires n in a.services && n in b.services && a.services[n] == b.services[n]
    ensures n in EndpointMirrorsOf(a, name) <==> n in EndpointMirrorsOf(b, name)
  {
  }

  lemma WantedAreKept(cfg: Config, src: Source, pre: map<Key, Service>, post: map<Key, Service>, subsets: seq<Subset>,
                      wanted: set<string>)
    requires AllHosted(cfg, src, pre, subsets) && wanted == WantedNames(cfg, subsets)
    requires forall n :: n in pre && n.name in wanted ==> n in post
    requires forall n :: n in post ==> n in pre && post[n] == pre[n]
    ensures AllHosted(cfg, src, post, subsets)
    ensures HostSubsets(cfg, src, post, subsets) == HostSubsets(cfg, src, pre, subsets)
  {
    hide MirrorName;
    forall s | s in subsets ensures SameHosts(cfg, src, pre, post, s.addresses) {
      forall x | x in s.addresses && Named(x) && HasHost(cfg, src, pre, x)
        ensures HasHost(cfg, src, post, x) && post[HostKey(cfg, src, x.hostname)] == pre[HostKey(cfg, src, x.hostname)]
      {
        assert MirrorName(cfg.link, x.hostname) in wanted;
      }
    }
    HostSubsetsDependOn(cfg, src, pre, post, subsets);
  }

  /** A successful endpoints event for an existing headless mirror: every named address has its endpoint
      mirror, no other service is left labelled for it, and its subsets are the exported ones without
      unnamed addresses and then-empty subsets, in order, with their hostnames and ports. */
  lemma HeadlessDiffSync(cfg: Config, remote: Remote, env: Env, st: State, k: Key, exported: Endpoints)
    requires ValidEnv(env) && k in remote.services && remote.services[k].ports != []
    requires var mk := MirrorKey(cfg.link, k); mk in st.services && Headless(st.services[mk]) && mk in st.endpoints
    requires HandleHeadless(cfg, remote, env, st, k, exported).1 == Done
    ensures Synced(cfg, Source(k, remote.services[k], exported.version), exported,
                   HandleHeadless(cfg, remote, env, st, k, exported).0)
  {
    hide SyncHeadless, Synced, ValidEnv, CreateHeadlessService, CreateGatewayEndpoints, CreateHeadlessEndpoints;
    hide MirrorKey;
    var mk := MirrorKey(cfg.link, k);
    DiffSynced(cfg, env, st, Source(k, remote.services[k], exported.version), exported, st.endpoints[mk]);
  }

  /* ---------- how a diff-sync ends ---------- */

  ghost predicate HostsRead(cfg: Config, env: Env, src: Source, addresses: seq<Address>) {
    forall a :: a in addresses && Named(a) ==> env.ok(GetService(HostKey(cfg, src, a.hostname)))
  }

  ghost predicate AllHostsRead(cfg: Config, env: Env, src: Source, subsets: seq<Subset>) {
    forall s :: s in subsets ==> HostsRead(cfg, env, src, s.addresses)
  }

  /** Where every named address has its endpoint mirror, the loop only reads them. */
  lemma {:induction false} SteadyAddresses(cfg: Config, env: Env, src: Source, addresses: seq<Address>,
                                           acc: Sync<Address>)
    requires acc.outcome == Done && Hosted(cfg, src, acc.st.services, addresses)
    ensures var r := SyncAddresses(cfg, env, src, addresses, acc);
            && r.st == acc.st
            && r.outcome == (if HostsRead(cfg, env, src, addresses) then Done else Fail)
            && (r.outcome == Done ==> r.wanted == acc.wanted + HostNames(cfg, addresses))
    decreases |addresses|
  {
    hide MirrorName, CreateEndpointMirror;
    if addresses != [] {
      var a, rest := addresses[0], addresses[1..];
      assert a in addresses && forall x :: x in addresses <==> x == a || x in rest;
      var next := SyncAddress(cfg, env, src, a, acc);
      if Named(a) {
        assert HasHost(cfg, src, acc.st.services, a);
      }
      if next.outcome == Done {
        SteadyAddresses(cfg, env, src, rest, next);
      } else {
        assert SyncAddresses(cfg, env, src, rest, next) == next;
      }
    }
  }

  lemma {:induction false} SteadySubsets(cfg: Config, env: Env, src: Source, subsets: seq<Subset>, acc: Sync<Subset>)
    requires acc.outcome == Done && AllHosted(cfg, src, acc.st.services, subsets)
    ensures var r := SyncSubsets(cfg, env, src, subsets, acc);
            && r.st == acc.st
            && r.outcome == (if AllHostsRead(cfg, env, src, subsets) then Done else Fail)
            && (r.outcome == Done ==> r.wanted == acc.wanted + WantedNames(cfg, subsets))
    decreases |subsets|
  {
    hide MirrorName, SyncAddresses, Hosted, HostsRead;
    if subsets != [] {
      var s, rest := subsets[0], subsets[1..];
      assert s in subsets && forall x :: x in subsets <==> x == s || x in rest;
      var next := SyncSubset(cfg, env, src, s, acc);
      SteadyAddresses(cfg, env, src, s.addresses, Sync(acc.st, acc.wanted, [], Done));
      if next.outcome == Done {
        SteadySubsets(cfg, env, src, rest, next);
        assert WantedNames(cfg, subsets) == HostNames(cfg, s.addresses) + WantedNames(cfg, rest);
      } else {
        assert SyncSubsets(cfg, env, src, rest, next) == next;
      }
    }
  }

  /** A service that is labelled for the mirror and that no exported address asks for. */
  ghost predicate Superfluous(cfg: Config, st: State, src: Source, exported: Endpoints, n: Key) {
    && n in st.services && Lookup(st.services[n].labels, HEADLESS_NAME) == Some(MirrorKey(cfg.link, src.key).name)
    && forall s, a :: s in exported.subsets && a in s.addresses && Named(a) ==>
         n.name != MirrorName(cfg.link, a.hostname)
  }

  /** How the diff-sync of a mirror ends whose named addresses all have their endpoint mirrors: it fails for good
      exactly if one of them, or the list of them, cannot be read; it is done exactly if nothing superfluous is left
      and the endpoints are still those that were read. */
  lemma SyncOutcomes(cfg: Config, env: Env, st: State, src: Source, exported: Endpoints, local: Endpoints)
    requires AllHosted(cfg, src, st.services, exported.subsets)
    ensures var (post, outcome) := SyncHeadless(cfg, env, st, src, exported, local);
            var mk := MirrorKey(cfg.link, src.key);
            var read := env.ok(ListServices) && forall s, a :: s in exported.subsets && a in s.addresses && Named(a) ==>
                          env.ok(GetService(HostKey(cfg, src, a.hostname)));
            && (outcome == Fail <==> !read)
            && (outcome == Fail ==> post == st)
            && (outcome == Done <==>
                  && read && (forall n :: Superfluous(cfg, st, src, exported, n) ==> env.ok(DeleteServiceCall(n)))
                  && env.ok(UpdateEndpointsCall(mk)) && mk in st.endpoints && !Superfluous(cfg, st, src, exported, mk)
                  && st.endpoints[mk].version == local.version)
            && (read ==> forall n :: n in post.services <==>
                  n in st.services && !(Superfluous(cfg, st, src, exported, n) && env.ok(DeleteServiceCall(n))))
            && outcome != Crash
  {
    hide MirrorKey, MirrorName, SyncSubsets, AllHosted, Readiness;
    SteadySubsets(cfg, env, src, exported.subsets, Sync(st, {}, [], Done));
    ReadAll(cfg, env, src, exported.subsets);
    var r := SyncSubsets(cfg, env, src, exported.subsets, Sync(st, {}, [], Done));
    if r.outcome == Done {
      assert r.wanted == WantedNames(cfg, exported.subsets);
      forall n ensures n in Unwanted(st, MirrorKey(cfg.link, src.key).name, r.wanted) <==>
                         Superfluous(cfg, st, src, exported, n)
      {
        UnwantedIsSuperfluous(cfg, st, src, exported, n);
      }
    }
  }

  lemma ReadAll(cfg: Config, env: Env, src: Source, subsets: seq<Subset>)
    ensures AllHostsRead(cfg, env, src, subsets) <==>
              forall s, a :: s in subsets && a in s.addresses && Named(a) ==>
                env.ok(GetService(HostKey(cfg, src, a.hostname)))
  {
    hide HostKey;
  }

  lemma UnwantedIsSuperfluous(cfg: Config, st: State, src: Source, exported: Endpoints, n: Key)
    ensures n in Unwanted(st, MirrorKey(cfg.link, src.key).name, WantedNames(cfg, exported.subsets)) <==>
              Superfluous(cfg, st, src, exported, n)
  {
    hide MirrorKey, MirrorName;
  }

  lemma {:induction false} AddressesInTwo(cfg: Config, env: Env, src: Source, x: seq<Address>, y: seq<Address>,
                                          acc: Sync<Address>)
    ensures SyncAddresses(cfg, env, src, x + y, acc) ==
            SyncAddresses(cfg, env, src, y, SyncAddresses(cfg, env, src, x, acc))
    decreases |x|
  {
    hide SyncAddress;
    if x == [] {
      assert x + y == y;
    } else if acc.outcome == Done {
      assert (x + y)[0] == x[0] && (x + y)[1..] == x[1..] + y;
      AddressesInTwo(cfg, env, src, x[1..], y, SyncAddress(cfg, env, src, x[0], acc));
    }
  }

  lemma {:induction false} SubsetsInTwo(cfg: Config, env: Env, src: Source, x: seq<Subset>, y: seq<Subset>,
                                        acc: Sync<Subset>)
    ensures SyncSubsets(cfg, env, src, x + y, acc) == SyncSubsets(cfg, env, src, y, SyncSubsets(cfg, env, src, x, acc))
    decreases |x|
  {
    hide SyncSubset;
    if x == [] {
      assert x + y == y;
    } else if acc.outcome == Done {
      assert (x + y)[0] == x[0] && (x + y)[1..] == x[1..] + y;
      SubsetsInTwo(cfg, env, src, x[1..], y, SyncSubset(cfg, env, src, x[0], acc));
    }
  }

  lemma MissingAddressStops(cfg: Config, env: Env, src: Source, before: seq<Address>, a: Address, after: seq<Address>,
                            acc: Sync<Address>)
    requires acc.outcome == Done && Hosted(cfg, src, acc.st.services, before) && HostsRead(cfg, env, src, before)
    requires Named(a) && env.ok(GetService(HostKey(cfg, src, a.hostname)))
    requires !HasHost(cfg, src, acc.st.services, a)
    requires CreateEndpointMirror(cfg, env, acc.st, src, a.hostname).outcome != Done
    ensures var r, made := SyncAddresses(cfg, env, src, before + [a] + after, acc),
                           CreateEndpointMirror(cfg, env, acc.st, src, a.hostname);
            r.st == made.st && r.outcome == made.outcome
  {
    hide CreateEndpointMirror, HostKey, Hosted, HostsRead;
    assert before + [a] + after == before + ([a] + after);
    AddressesInTwo(cfg, env, src, before, [a] + after, acc);
    SteadyAddresses(cfg, env, src, before, acc);
    var mid := SyncAddresses(cfg, env, src, before, acc);
    var next := SyncAddress(cfg, env, src, a, mid);
    assert ([a] + after)[1..] == after;
    assert SyncAddresses(cfg, env, src, after, next) == next;
  }

  /** The first named address without an endpoint mirror decides: where that cannot be made, the event ends as its
      creation did and leaves what that left, with nothing deleted and no endpoints written. */
  lemma MissingHostStops(cfg: Config, env: Env, st: State, src: Source, exported: Endpoints, local: Endpoints,
                         front: seq<Subset>, s: Subset, back: seq<Subset>, before: seq<Address>, a: Address,
                         after: seq<Address>)
    requires exported.subsets == front + [s] + back && s.addresses == before + [a] + after
    requires AllHosted(cfg, src, st.services, front) && AllHostsRead(cfg, env, src, front)
    requires Hosted(cfg, src, st.services, before) && HostsRead(cfg, env, src, before)
    requires Named(a) && env.ok(GetService(HostKey(cfg, src, a.hostname))) && !HasHost(cfg, src, st.services, a)
    requires CreateEndpointMirror(cfg, env, st, src, a.hostname).outcome != Done
    ensures var made := CreateEndpointMirror(cfg, env, st, src, a.hostname);
            SyncHeadless(cfg, env, st, src, exported, local) == (made.st, made.outcome)
  {
    hide CreateEndpointMirror, HostKey, Hosted, HostsRead, AllHosted, AllHostsRead, SyncAddresses, HasHost;
    var acc := Sync(st, {}, [], Done);
    assert front + [s] + back == front + ([s] + back);
    SubsetsInTwo(cfg, env, src, front, [s] + back, acc);
    SteadySubsets(cfg, env, src, front, acc);
    var mid := SyncSubsets(cfg, env, src, front, acc);
    MissingAddressStops(cfg, env, src, before, a, after, Sync(mid.st, mid.wanted, [], Done));
    var next := SyncSubset(cfg, env, src, s, mid);
    assert ([s] + back)[1..] == back;
    assert SyncSubsets(cfg, env, src, back, next) == next;
  }
}
