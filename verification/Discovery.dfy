/** Links without remote discovery. If no remote service is in discovery mode or carries the discovery label, and no
    mirror does at the start, then none ever does, and repair passes nothing over. */
module Discovery {
  import opened Strings
  import opened Kubernetes
  import opened Mirror
  import opened StatusList
  import opened Federation
  import opened Api
  import opened HeadlessMirror
  import opened Handlers
  import opened Machine
  import opened Liveness

  type State = Api.State

  /* ---------- labels ---------- */

  /** The labels of a remote service that its mirror takes no discovery label from. */
  predicate Bare(link: Link, labels: Labels) {
    !IsRemoteDiscovery(link, labels) && REMOTE_DISCOVERY !in labels
  }

  predicate Clean(cfg: Config, labels: Labels) {
    OfLink(cfg.link, labels) ==> REMOTE_DISCOVERY !in labels
  }

  predicate AllClean(cfg: Config, st: State) {
    forall n :: n in st.services ==> Clean(cfg, st.services[n].labels)
  }

  lemma BareMakesClean(cfg: Config, k: Key, labels: Labels)
    requires Bare(cfg.link, labels)
    ensures Clean(cfg, MirrorLabels(cfg.link, k, labels))
    ensures Clean(cfg, MirrorLabels(cfg.link, k, labels)[HEADLESS_NAME := MirrorName(cfg.link, k.name)])
  {
    hide MirrorLabels, IsRemoteDiscovery, OfLink;
    MirrorLabelFacts(cfg.link, k, labels);
    assert REMOTE_DISCOVERY != HEADLESS_NAME by { ReservedKeys(); }
  }

  /** Every service is as it was labelled before, or clean. */
  predicate Tidy(cfg: Config, pre: State, post: State) {
    forall n :: n in post.services ==>
      || (n in pre.services && post.services[n].labels == pre.services[n].labels)
      || Clean(cfg, post.services[n].labels)
  }

  lemma TidyTransitive(cfg: Config, a: State, b: State, c: State)
    requires Tidy(cfg, a, b) && Tidy(cfg, b, c)
    ensures Tidy(cfg, a, c)
  {
    hide Clean;
  }

  lemma TidyKeepsClean(cfg: Config, pre: State, post: State)
    requires Tidy(cfg, pre, post) && AllClean(cfg, pre)
    ensures AllClean(cfg, post)
  {
    hide OfLink;
  }

  lemma CallsTidy(cfg: Config, env: Env, st: State, k: Key, svc: Service)
    requires Clean(cfg, svc.labels)
    ensures Tidy(cfg, st, CreateService(env, st, k, svc).0) && Tidy(cfg, st, UpdateService(env, st, k, svc).0)
  {
    hide Clean, Tidy;
    SameServicesTidy(cfg, st, st);
    WriteTidy(cfg, st, k, Stamp(env, st, k, svc));
    WriteTidy(cfg, st, k, svc.(version := st.now));
  }

  lemma WriteTidy(cfg: Config, st: State, k: Key, svc: Service)
    requires Clean(cfg, svc.labels)
    ensures Tidy(cfg, st, st.(services := st.services[k := svc]))
  {
    hide Clean;
  }

  lemma DeletesTidy(cfg: Config, env: Env, st: State, k: Key, keys: set<Key>)
    ensures Tidy(cfg, st, DeleteService(env, st, k).0) && Tidy(cfg, st, Purge(env, st, keys))
  {
    hide Clean;
  }

  lemma SameServicesTidy(cfg: Config, pre: State, post: State)
    requires post.services == pre.services
    ensures Tidy(cfg, pre, post)
  {
    hide Clean;
  }

  /* ---------- handlers ---------- */

  lemma GatewayEndpointsTidy(cfg: Config, remote: Remote, env: Env, st: State, k: Key, svc: Service)
    ensures Tidy(cfg, st, CreateGatewayEndpoints(cfg, remote, env, st, k, svc).0)
  {
    hide MirrorKey, ResolveGateway, EndpointPorts, NewGatewayEndpoints, ByLiveness, DeleteService, Clean, Tidy;
    var mk := MirrorKey(cfg.link, k);
    SameServicesTidy(cfg, st, st);
    var addresses, ports := ResolveGateway(cfg.link, env.lookup), EndpointPorts(cfg.link, svc.ports);
    if addresses.Some? && ports.Some? {
      var ep := ByLiveness(st, NewGatewayEndpoints(cfg, remote, k, svc, addresses.value, ports.value));
      var st1 := CreateEndpoints(env, st, mk, ep).0;
      SameServicesTidy(cfg, st, st1);
      DeletesTidy(cfg, env, st1, mk, {});
      TidyTransitive(cfg, st, st1, DeleteService(env, st1, mk).0);
    }
  }

  lemma EndpointMirrorTidy(cfg: Config, env: Env, st: State, src: Source, host: string)
    requires Bare(cfg.link, src.svc.labels)
    ensures Tidy(cfg, st, CreateEndpointMirror(cfg, env, st, src, host).st)
  {
    hide ResolveGateway, EndpointPorts, NewEndpointMirrorEndpoints, ByLiveness, HostKey, Clean, Tidy, Bare;
    hide MirrorLabels;
    hide CreateService, DeleteService, EndpointMirrorFqName, FormatNat, RemapPorts;
    var k := HostKey(cfg, src, host);
    SameServicesTidy(cfg, st, st);
    var addresses, ports := ResolveGateway(cfg.link, env.lookup), EndpointPorts(cfg.link, src.svc.ports);
    if addresses.Some? && ports.Some? {
      var svc := NewEndpointMirror(cfg, src, host);
      BareMakesClean(cfg, src.key, src.svc.labels);
      CallsTidy(cfg, env, st, k, svc);
      var st1 := CreateService(env, st, k, svc).0;
      var ep := ByLiveness(st1, NewEndpointMirrorEndpoints(cfg, src, host, addresses.value, ports.value));
      var st2 := CreateEndpoints(env, st1, k, ep).0;
      SameServicesTidy(cfg, st1, st2);
      TidyTransitive(cfg, st, st1, st2);
      DeletesTidy(cfg, env, st2, k, {});
      TidyTransitive(cfg, st, st2, DeleteService(env, st2, k).0);
    }
  }

  lemma {:induction false} SyncAddressesTidy(cfg: Config, env: Env, src: Source, addresses: seq<Address>,
                                             acc: Sync<Address>)
    requires Bare(cfg.link, src.svc.labels)
    ensures Tidy(cfg, acc.st, SyncAddresses(cfg, env, src, addresses, acc).st)
    decreases |addresses|
  {
    hide CreateEndpointMirror, HostKey, Tidy, Bare;
    SameServicesTidy(cfg, acc.st, acc.st);
    if addresses != [] && acc.outcome == Done {
      EndpointMirrorTidy(cfg, env, acc.st, src, addresses[0].hostname);
      var next := SyncAddress(cfg, env, src, addresses[0], acc);
      SyncAddressesTidy(cfg, env, src, addresses[1..], next);
      TidyTransitive(cfg, acc.st, next.st, SyncAddresses(cfg, env, src, addresses[1..], next).st);
    }
  }

  lemma {:induction false} SyncSubsetsTidy(cfg: Config, env: Env, src: Source, subsets: seq<Subset>, acc: Sync<Subset>)
    requires Bare(cfg.link, src.svc.labels)
    ensures Tidy(cfg, acc.st, SyncSubsets(cfg, env, src, subsets, acc).st)
    decreases |subsets|
  {
    hide SyncAddresses, Tidy, Bare;
    SameServicesTidy(cfg, acc.st, acc.st);
    if subsets != [] && acc.outcome == Done {
      SyncAddressesTidy(cfg, env, src, subsets[0].addresses, Sync(acc.st, acc.wanted, [], Done));
      var next := SyncSubset(cfg, env, src, subsets[0], acc);
      SyncSubsetsTidy(cfg, env, src, subsets[1..], next);
      TidyTransitive(cfg, acc.st, next.st, SyncSubsets(cfg, env, src, subsets[1..], next).st);
    }
  }

  lemma {:induction false} MakeAddressesTidy(cfg: Config, env: Env, src: Source, addresses: seq<Address>,
                                             acc: Sync<Address>)
    requires Bare(cfg.link, src.svc.labels)
    ensures Tidy(cfg, acc.st, MakeAddresses(cfg, env, src, addresses, acc).st)
    decreases |addresses|
  {
    hide CreateEndpointMirror, Tidy, Bare;
    SameServicesTidy(cfg, acc.st, acc.st);
    if addresses != [] && acc.outcome == Done {
      EndpointMirrorTidy(cfg, env, acc.st, src, addresses[0].hostname);
      var next := MakeAddress(cfg, env, src, addresses[0], acc);
      MakeAddressesTidy(cfg, env, src, addresses[1..], next);
      TidyTransitive(cfg, acc.st, next.st, MakeAddresses(cfg, env, src, addresses[1..], next).st);
    }
  }

  lemma {:induction false} MakeSubsetsTidy(cfg: Config, env: Env, src: Source, subsets: seq<Subset>, acc: Sync<Subset>)
    requires Bare(cfg.link, src.svc.labels)
    ensures Tidy(cfg, acc.st, MakeSubsets(cfg, env, src, subsets, acc).st)
    decreases |subsets|
  {
    hide MakeAddresses, Tidy, Bare;
    SameServicesTidy(cfg, acc.st, acc.st);
    if subsets != [] && acc.outcome == Done {
      MakeAddressesTidy(cfg, env, src, subsets[0].addresses, Sync(acc.st, {}, [], Done));
      var next := MakeSubset(cfg, env, src, subsets[0], acc);
      MakeSubsetsTidy(cfg, env, src, subsets[1..], next);
      TidyTransitive(cfg, acc.st, next.st, MakeSubsets(cfg, env, src, subsets[1..], next).st);
    }
  }

  lemma SyncHeadlessTidy(cfg: Config, env: Env, st: State, src: Source, exported: Endpoints, local: Endpoints)
    requires Bare(cfg.link, src.svc.labels)
    ensures Tidy(cfg, st, SyncHeadless(cfg, env, st, src, exported, local).0)
  {
    hide SyncSubsets, MirrorKey, ByLiveness, Purge, Tidy, Bare, Unwanted;
    var start := Sync<Subset>.Sync(st, {}, [], Done);
    SyncSubsetsTidy(cfg, env, src, exported.subsets, start);
    var r := SyncSubsets(cfg, env, src, exported.subsets, start);
    var mk := MirrorKey(cfg.link, src.key);
    var keys := Unwanted(r.st, mk.name, r.wanted);
    DeletesTidy(cfg, env, r.st, mk, keys);
    var st1 := Purge(env, r.st, keys);
    TidyTransitive(cfg, st, r.st, st1);
    var st2 := UpdateEndpoints(env, st1, mk, ByLiveness(st1, local.(subsets := r.out))).0;
    SameServicesTidy(cfg, st1, st2);
    TidyTransitive(cfg, st, st1, st2);
  }

  lemma CreateHeadlessEndpointsTidy(cfg: Config, env: Env, st: State, src: Source, exported: Endpoints)
    requires Bare(cfg.link, src.svc.labels)
    ensures Tidy(cfg, st, CreateHeadlessEndpoints(cfg, env, st, src, exported).0)
  {
    hide MakeSubsets, MirrorKey, EndpointLabels, GatewayAnnotations, FqName, Tidy, Bare, DeleteService;
    var start := Sync<Subset>.Sync(st, {}, [], Done);
    MakeSubsetsTidy(cfg, env, src, exported.subsets, start);
    var r := MakeSubsets(cfg, env, src, exported.subsets, start);
    var mk := MirrorKey(cfg.link, src.key);
    var ep := Endpoints(EndpointLabels(cfg.link, src.svc.labels),
                        GatewayAnnotations(cfg.link, FqName(cfg.link, src.key)), r.out, 0);
    var st1 := CreateEndpoints(env, r.st, mk, ep).0;
    SameServicesTidy(cfg, r.st, st1);
    TidyTransitive(cfg, st, r.st, st1);
    DeletesTidy(cfg, env, st1, mk, {});
    TidyTransitive(cfg, st, st1, DeleteService(env, st1, mk).0);
  }

  lemma CreateHeadlessServiceTidy(cfg: Config, env: Env, st: State, src: Source, exported: Endpoints)
    requires Bare(cfg.link, src.svc.labels)
    ensures Tidy(cfg, st, CreateHeadlessService(cfg, env, st, src, exported).st)
  {
    hide MirrorKey, MirrorLabels, MirrorAnnotations, RemapPorts, Stamp, ExportsAsHeadless, Tidy, Bare, CreateService;
    hide Clean;
    SameServicesTidy(cfg, st, st);
    var st1 := EnsureNamespace(cfg, env, st, src.key.ns).0;
    SameServicesTidy(cfg, st, st1);
    var mk := MirrorKey(cfg.link, src.key);
    var svc := NewMirror(cfg, src.key, src.svc, if ExportsAsHeadless(exported) then CLUSTER_IP_NONE else "");
    BareMakesClean(cfg, src.key, src.svc.labels);
    CallsTidy(cfg, env, st1, mk, svc);
    TidyTransitive(cfg, st, st1, CreateService(env, st1, mk, svc).0);
  }

  lemma HeadlessTidy(cfg: Config, remote: Remote, env: Env, st: State, k: Key, exported: Endpoints)
    requires k in remote.services ==> Bare(cfg.link, remote.services[k].labels)
    ensures Tidy(cfg, st, HandleHeadless(cfg, remote, env, st, k, exported).0)
  {
    hide MirrorKey, CreateHeadlessService, CreateHeadlessEndpoints, CreateGatewayEndpoints, SyncHeadless, Tidy, Bare;
    SameServicesTidy(cfg, st, st);
    if k in remote.services {
      var src := Source(k, remote.services[k], exported.version);
      var mk := MirrorKey(cfg.link, k);
      CreateHeadlessServiceTidy(cfg, env, st, src, exported);
      var made := if mk in st.services then Created(st, st.services[mk].clusterIP, Done)
                  else CreateHeadlessService(cfg, env, st, src, exported);
      GatewayEndpointsTidy(cfg, remote, env, made.st, k, src.svc);
      TidyTransitive(cfg, st, made.st, CreateGatewayEndpoints(cfg, remote, env, made.st, k, src.svc).0);
      CreateHeadlessEndpointsTidy(cfg, env, made.st, src, exported);
      TidyTransitive(cfg, st, made.st, CreateHeadlessEndpoints(cfg, env, made.st, src, exported).0);
      if mk in made.st.endpoints {
        SyncHeadlessTidy(cfg, env, made.st, src, exported, made.st.endpoints[mk]);
        TidyTransitive(cfg, st, made.st, SyncHeadless(cfg, env, made.st, src, exported, made.st.endpoints[mk]).0);
      }
    }
  }

  lemma EndpointsTidy(cfg: Config, remote: Remote, env: Env, st: State, k: Key, exported: Endpoints)
    requires k in remote.services ==> Bare(cfg.link, remote.services[k].labels)
    ensures Tidy(cfg, st, HandleEndpoints(cfg, remote, env, st, k, exported).0)
  {
    hide HandleHeadless, MirrorKey, ResolveGateway, EndpointPorts, Readiness, GatewaySubsets, HasReady, Bare, Tidy;
    hide IsHeadlessEndpoints;
    if IsHeadlessEndpoints(exported) && cfg.headlessEnabled {
      HeadlessTidy(cfg, remote, env, st, k, exported);
    } else {
      var post := HandleEndpoints(cfg, remote, env, st, k, exported).0;
      assert post.services == st.services;
      SameServicesTidy(cfg, st, post);
    }
  }

  lemma StatusTidy(cfg: Config, st: State, st1: State, k: Key, c: Condition)
    requires Tidy(cfg, st, st1)
    ensures Tidy(cfg, st, PutMirrorStatus(cfg, st1, k, c)) && Tidy(cfg, st, PutFederatedStatus(cfg, st1, k, c))
    ensures Tidy(cfg, st, DropMirrorStatus(cfg, st1, k)) && Tidy(cfg, st, DropFederatedStatus(cfg, st1, k))
  {
    hide Update, Delete, Clean;
  }

  lemma ExportTidy(cfg: Config, remote: Remote, env: Env, st: State, k: Key, svc: Service)
    requires Bare(cfg.link, svc.labels)
    ensures Tidy(cfg, st, HandleExported(cfg, remote, env, st, k, svc).0)
  {
    hide MirrorKey, MirrorLabels, MirrorAnnotations, RemapPorts, IsRemoteDiscovery, CreateGatewayEndpoints, Mirrored;
    hide CreateService, PutMirrorStatus, Tidy, Bare, Clean, Failure, Headless;
    var mk := MirrorKey(cfg.link, k);
    var st1 := EnsureNamespace(cfg, env, st, k.ns).0;
    SameServicesTidy(cfg, st, st);
    SameServicesTidy(cfg, st, st1);
    BareMakesClean(cfg, k, svc.labels);
    CallsTidy(cfg, env, st1, mk, NewMirror(cfg, k, svc, ""));
    var st2 := CreateService(env, st1, mk, NewMirror(cfg, k, svc, "")).0;
    TidyTransitive(cfg, st, st1, st2);
    GatewayEndpointsTidy(cfg, remote, env, st2, k, svc);
    var st3 := CreateGatewayEndpoints(cfg, remote, env, st2, k, svc).0;
    TidyTransitive(cfg, st, st2, st3);
    forall c: Condition
      ensures Tidy(cfg, st, PutMirrorStatus(cfg, st, k, c)) && Tidy(cfg, st, PutMirrorStatus(cfg, st1, k, c))
      ensures Tidy(cfg, st, PutMirrorStatus(cfg, st2, k, c)) && Tidy(cfg, st, PutMirrorStatus(cfg, st3, k, c))
    {
      StatusTidy(cfg, st, st, k, c);
      StatusTidy(cfg, st, st1, k, c);
      StatusTidy(cfg, st, st2, k, c);
      StatusTidy(cfg, st, st3, k, c);
    }
  }

  lemma UpdateModeTidy(cfg: Config, remote: Remote, env: Env, st: State, ev: Event)
    requires ev.Updated?
    ensures Tidy(cfg, st, UpdateMode(cfg, remote, env, st, ev).0)
  {
    hide MirrorKey, IsRemoteDiscovery, CreateGatewayEndpoints, Failure, ByLiveness, ResolveGateway, EndpointPorts;
    hide GatewaySubsets, Update, Tidy;
    var post := UpdateMode(cfg, remote, env, st, ev).0;
    if !IsRemoteDiscovery(cfg.link, ev.svc.labels) && ev.localEndpoints.None? {
      GatewayEndpointsTidy(cfg, remote, env, st, ev.key, ev.svc);
      StatusTidy(cfg, st, CreateGatewayEndpoints(cfg, remote, env, st, ev.key, ev.svc).0, ev.key,
                 Failure(REASON_ERROR));
    } else {
      assert post.services == st.services;
      SameServicesTidy(cfg, st, post);
    }
  }

  lemma UpdateTidy(cfg: Config, remote: Remote, env: Env, st: State, ev: Event)
    requires ev.Updated? && Bare(cfg.link, ev.svc.labels)
    ensures Tidy(cfg, st, HandleUpdated(cfg, remote, env, st, ev).st)
    ensures HandleUpdated(cfg, remote, env, st, ev).spawned == []
    ensures var out := HandleUpdated(cfg, remote, env, st, ev); out.event.Updated? && out.event.svc == ev.svc
  {
    hide MirrorKey, MirrorLabels, MirrorAnnotations, RemapPorts, UpdateMode, UpdateService, PutMirrorStatus, Mirrored;
    hide Tidy, Bare, Clean, Failure;
    UpdateModeTidy(cfg, remote, env, st, ev);
    BareMakesClean(cfg, ev.key, ev.svc.labels);
    var st1, mk := UpdateMode(cfg, remote, env, st, ev).0, MirrorKey(cfg.link, ev.key);
    CallsTidy(cfg, env, st1, mk, UpdatedLocal(cfg, ev));
    var st2 := UpdateService(env, st1, mk, UpdatedLocal(cfg, ev)).0;
    TidyTransitive(cfg, st, st1, st2);
    StatusTidy(cfg, st, st2, ev.key, Mirrored(mk));
    StatusTidy(cfg, st, st2, ev.key, Failure(REASON_ERROR));
  }

  lemma UnexportTidy(cfg: Config, env: Env, st: State, k: Key)
    ensures Tidy(cfg, st, HandleUnexported(cfg, env, st, k).0)
  {
    hide MirrorKey, Headless, Purge, DeleteService, DropMirrorStatus, EndpointMirrorsOf, Tidy;
    var st1, mk := DropMirrorStatus(cfg, st, k), MirrorKey(cfg.link, k);
    SameServicesTidy(cfg, st, st);
    StatusTidy(cfg, st, st, k, Failure(REASON_ERROR));
    forall keys: set<Key> ensures Tidy(cfg, st, DeleteService(env, Purge(env, st1, keys), mk).0) {
      DeletesTidy(cfg, env, st1, mk, keys);
      TidyTransitive(cfg, st, st1, Purge(env, st1, keys));
      DeletesTidy(cfg, env, Purge(env, st1, keys), mk, {});
      TidyTransitive(cfg, st, Purge(env, st1, keys), DeleteService(env, Purge(env, st1, keys), mk).0);
    }
  }

  lemma SweepsTidy(cfg: Config, remote: Remote, env: Env, st: State)
    ensures Tidy(cfg, st, HandleGc(cfg, remote, env, st).0) && Tidy(cfg, st, HandleCleanup(cfg, env, st).0)
    ensures Tidy(cfg, st, HandleRepair(cfg, remote, env, st).0)
  {
    hide Purge, OriginOf, LinkEndpoints, LinkServices, Orphans, HandleRepair, Tidy;
    SameServicesTidy(cfg, st, st);
    DeletesTidy(cfg, env, st, Key("", ""), Orphans(cfg, remote, env, st));
    DeletesTidy(cfg, env, st, Key("", ""), LinkServices(cfg, st));
    var st1 := Purge(env, st, LinkServices(cfg, st));
    var st2 := PurgeEndpoints(env, st1, LinkEndpoints(cfg, st1));
    SameServicesTidy(cfg, st1, st2);
    TidyTransitive(cfg, st, st1, st2);
    RepairKeepsServices(cfg, remote, env, st);
    SameServicesTidy(cfg, st, HandleRepair(cfg, remote, env, st).0);
  }

  lemma CreateFederatedTidy(cfg: Config, env: Env, st: State, k: Key, svc: Service)
    ensures Tidy(cfg, st, HandleCreateFederated(cfg, env, st, k, svc).0)
  {
    hide FederatedKey, CommonLabels, CreatedAnnotations, RemapPorts, PutFederatedStatus, CreateService, Headless, Clean;
    hide Mirrored, Failure, Tidy;
    var st1 := EnsureNamespace(cfg, env, st, k.ns).0;
    SameServicesTidy(cfg, st, st);
    SameServicesTidy(cfg, st, st1);
    var federated := Service(CommonLabels(svc.labels), CreatedAnnotations(cfg.link.cluster, k.name, svc.annotations),
                             RemapPorts(svc.ports), "", 0);
    assert Clean(cfg, federated.labels) by { FederatedIsClean(cfg, svc.labels); }
    CallsTidy(cfg, env, st1, FederatedKey(k), federated);
    var st2 := CreateService(env, st1, FederatedKey(k), federated).0;
    TidyTransitive(cfg, st, st1, st2);
    forall c: Condition
      ensures Tidy(cfg, st, PutFederatedStatus(cfg, st, k, c)) && Tidy(cfg, st, PutFederatedStatus(cfg, st1, k, c))
      ensures Tidy(cfg, st, PutFederatedStatus(cfg, st2, k, c))
    {
      StatusTidy(cfg, st, st, k, c);
      StatusTidy(cfg, st, st1, k, c);
      StatusTidy(cfg, st, st2, k, c);
    }
  }

  lemma FederatedIsClean(cfg: Config, labels: Labels)
    ensures Clean(cfg, CommonLabels(labels))
  {
    hide OfLink, CommonLabels;
    FederatedOfNoLink(cfg.link, labels);
  }

  lemma JoinTidy(cfg: Config, env: Env, st: State, ev: Event)
    requires ev.JoinFederated? && Clean(cfg, ev.local.labels)
    ensures var out := HandleJoin(cfg, env, st, ev);
            && Tidy(cfg, st, out.st) && out.spawned == []
            && out.event.JoinFederated? && out.event.local.labels == ev.local.labels
  {
    hide FederatedKey, JoinedAnnotations, PutFederatedStatus, UpdateService, Headless, Clean, Mirrored, Failure, Tidy;
    var fk := FederatedKey(ev.key);
    SameServicesTidy(cfg, st, st);
    StatusTidy(cfg, st, st, ev.key, Failure(REASON_INVALID_SERVICE));
    var joined := JoinedAnnotations(cfg.link.cluster, ev.key.name, ev.local.annotations);
    if joined.Some? {
      var local := ev.local.(annotations := joined.value);
      CallsTidy(cfg, env, st, fk, local);
      StatusTidy(cfg, st, UpdateService(env, st, fk, local).0, ev.key, Mirrored(fk));
      StatusTidy(cfg, st, UpdateService(env, st, fk, local).0, ev.key, Failure(REASON_ERROR));
    }
  }

  lemma LeaveTidy(cfg: Config, env: Env, st: State, k: Key)
    ensures Tidy(cfg, st, HandleLeave(cfg, env, st, k).0)
  {
    hide FederatedKey, LeftAnnotations, NoMembers, Update, Delete, Clean;
  }

  /* ---------- events ---------- */

  /** An event that brings no discovery label: its remote service has none, and the copy it would write neither. */
  predicate BareEvent(cfg: Config, ev: Event) {
    && (ev.OnAdd? || ev.OnUpdate? || ev.Exported? || ev.Updated? ==> Bare(cfg.link, ev.svc.labels))
    && (ev.JoinFederated? ==> Clean(cfg, ev.local.labels))
  }

  predicate BareRemote(cfg: Config, remote: Remote) {
    forall k :: k in remote.services ==> Bare(cfg.link, remote.services[k].labels)
  }

  lemma HandleTidy(cfg: Config, remote: Remote, env: Env, st: State, ev: Event)
    requires BareRemote(cfg, remote) && BareEvent(cfg, ev)
    ensures Tidy(cfg, st, Handle(cfg, remote, env, st, ev).st) && BareEvent(cfg, Handle(cfg, remote, env, st, ev).event)
  {
    hide MirrorDecision, HandleEndpoints, HandleExported, HandleUpdated, HandleUnexported, HandleCreateFederated;
    hide HandleJoin, HandleLeave, HandleCleanup, HandleGc, HandleRepair, OnAdds, Tidy, Bare, Clean, Desired, Update;
    hide IsFederatedMember, FederatedKey;
    SweepsTidy(cfg, remote, env, st);
    SameServicesTidy(cfg, st, st);
    match ev
    case OnAdd(_, _) => SameServicesTidy(cfg, st, CreateOrUpdate(cfg, env, st, ev).st);
    case OnUpdate(_, _) => SameServicesTidy(cfg, st, CreateOrUpdate(cfg, env, st, ev).st);
    case OnAddEndpoints(k, ep) => EndpointsTidy(cfg, remote, env, st, k, ep);
    case OnUpdateEndpoints(k, ep) => EndpointsTidy(cfg, remote, env, st, k, ep);
    case Exported(k, svc) => ExportTidy(cfg, remote, env, st, k, svc);
    case Updated(_, _, _, _) => UpdateTidy(cfg, remote, env, st, ev);
    case Unexported(k) => UnexportTidy(cfg, env, st, k);
    case CreateFederated(k, svc) => CreateFederatedTidy(cfg, env, st, k, svc);
    case JoinFederated(_, _, _) => JoinTidy(cfg, env, st, ev);
    case LeaveFederated(k) => LeaveTidy(cfg, env, st, k);
    case _ =>
  }

  lemma SpawnsBare(cfg: Config, remote: Remote, env: Env, st: State, ev: Event)
    requires BareRemote(cfg, remote) && BareEvent(cfg, ev) && AllClean(cfg, st)
    ensures var spawned := Handle(cfg, remote, env, st, ev).spawned;
            forall i :: 0 <= i < |spawned| ==> BareEvent(cfg, spawned[i])
  {
    hide CreateOrUpdate, HandleEndpoints, HandleExported, HandleUpdated, HandleUnexported, HandleCreateFederated;
    hide HandleJoin, HandleLeave, HandleCleanup, HandleGc, HandleRepair, OnAdds, Bare, Clean, Desired;
    hide IsFederatedMember;
    match ev
    case OnAdd(_, _) => DecisionSpawnsBare(cfg, env, st, ev);
    case OnUpdate(_, _) => DecisionSpawnsBare(cfg, env, st, ev);
    case NamespaceAdded(ns) => OnAddsBare(cfg, remote, env.list(RemoteIn(remote, ns)));
    case Updated(_, _, _, _) => UpdateTidy(cfg, remote, env, st, ev);
    case JoinFederated(_, _, _) => JoinTidy(cfg, env, st, ev);
    case _ =>
  }

  lemma DecisionSpawnsBare(cfg: Config, env: Env, st: State, ev: Event)
    requires (ev.OnAdd? || ev.OnUpdate?) && BareEvent(cfg, ev) && AllClean(cfg, st)
    ensures var spawned := CreateOrUpdate(cfg, env, st, ev).spawned;
            forall i :: 0 <= i < |spawned| ==> BareEvent(cfg, spawned[i])
  {
    hide FederatedKey, MirrorKey, IsFederatedMember, Desired, PutFederatedStatus, FormatNat, Bare, Clean;
  }

  lemma {:induction false} OnAddsBare(cfg: Config, remote: Remote, keys: seq<Key>)
    requires BareRemote(cfg, remote)
    ensures forall i :: 0 <= i < |OnAdds(remote, keys)| ==> BareEvent(cfg, OnAdds(remote, keys)[i])
  {
    hide Bare, Clean;
    if keys != [] {
      OnAddsBare(cfg, remote, keys[..|keys| - 1]);
    }
  }

  /* ---------- runs ---------- */

  /** Nothing in the system is in discovery mode or carries the discovery label as one of the link's services. */
  ghost predicate AllBare(cfg: Config, sys: System) {
    && BareRemote(cfg, sys.remote) && AllClean(cfg, sys.st)
    && forall i :: 0 <= i < |sys.queue| ==> BareEvent(cfg, sys.queue[i].event)
  }

  /** What arrives is bare. */
  predicate BareMove(cfg: Config, move: Move) {
    move.Informer? ==> FromOutside(move.event) && BareEvent(cfg, move.event) && BareRemote(cfg, move.remote)
  }

  lemma StepStaysBare(cfg: Config, sys: System, i: nat, env: Env)
    requires AllBare(cfg, sys) && i < |sys.queue|
    ensures AllBare(cfg, Step(cfg, sys, i, env))
  {
    hide Handle, BareEvent, BareRemote, AllClean, Tidy;
    var ev := sys.queue[i].event;
    var out := Handle(cfg, sys.remote, env, sys.st, ev);
    HandleTidy(cfg, sys.remote, env, sys.st, ev);
    SpawnsBare(cfg, sys.remote, env, sys.st, ev);
    TidyKeepsClean(cfg, sys.st, out.st);
    assert AllClean(cfg, out.st.(now := sys.st.now + 1)) by { CleanIgnoresClock(cfg, out.st, sys.st.now + 1); }
    var next := Step(cfg, sys, i, env).queue;
    forall l | 0 <= l < |next| ensures BareEvent(cfg, next[l].event) {
      if l < |sys.queue| - 1 {
        assert next[l] == sys.queue[if l < i then l else l + 1];
      } else if l < |sys.queue| - 1 + |out.spawned| {
        assert next[l].event == out.spawned[l - (|sys.queue| - 1)];
      }
    }
  }

  lemma CleanIgnoresClock(cfg: Config, st: State, now: nat)
    requires AllClean(cfg, st)
    ensures AllClean(cfg, st.(now := now))
  {
    hide Clean;
  }

  lemma MoveStaysBare(cfg: Config, sys: System, move: Move)
    requires AllBare(cfg, sys) && BareMove(cfg, move) && (move.Process? ==> move.index < |sys.queue|)
    ensures AllBare(cfg, Next(cfg, sys, move))
  {
    hide Step, Bare, Clean;
    if move.Process? {
      StepStaysBare(cfg, sys, move.index, move.env);
    } else {
      var next := Next(cfg, sys, move);
      var n := |sys.queue|;
      assert next.queue == sys.queue + [next.queue[n]];
      assert BareEvent(cfg, next.queue[n].event);
    }
  }

  lemma BareIsNotSkipped(cfg: Config, sys: System)
    requires AllBare(cfg, sys)
    ensures NothingSkipped(cfg, sys.st)
  {
    hide OfLink, Headless, ReadyForRepair, BareEvent, BareRemote;
  }

  /** A run of bare moves, each admissible as far as it depends on anything but services that repair passes over. */
  ghost predicate BareRun(cfg: Config, sys: System, moves: seq<Move>)
    decreases |moves|
  {
    moves == [] ||
    (&& BareMove(cfg, moves[0]) && (moves[0].Process? ==> moves[0].index < |sys.queue|)
     && (NothingSkipped(cfg, sys.st) ==> Admissible(cfg, sys, moves[0]))
     && BareRun(cfg, Next(cfg, sys, moves[0]), moves[1..]))
  }

  lemma {:induction false} BareRunIsAdmissible(cfg: Config, sys: System, moves: seq<Move>)
    requires AllBare(cfg, sys) && BareRun(cfg, sys, moves)
    ensures AdmissibleRun(cfg, sys, moves) && AllBare(cfg, After(cfg, sys, moves))
    decreases |moves|
  {
    hide AllBare, BareMove, NothingSkipped, Admissible, Next;
    if moves != [] {
      BareIsNotSkipped(cfg, sys);
      MoveStaysBare(cfg, sys, moves[0]);
      BareRunIsAdmissible(cfg, Next(cfg, sys, moves[0]), moves[1..]);
    }
  }

  /** Where nothing is in discovery mode or carries the discovery label, at the start or in what arrives, repair
      never passes a ready service over, in whatever state it is handled. Of the last repair it then only remains
      to ask that it succeeds and that there are no orphans. */
  lemma GatewayLinksAreSafe(cfg: Config, sys: System, moves: seq<Move>)
    requires AllBare(cfg, sys) && BareRun(cfg, sys, moves) && Consistent(cfg, sys) && Shielded(cfg, sys)
    ensures AdmissibleRun(cfg, sys, moves)
    ensures var end := After(cfg, sys, moves); NothingSkipped(cfg, end.st) && Safe(cfg, end)
  {
    hide AllBare, BareRun, NothingSkipped, AdmissibleRun, After, Consistent, Shielded, Safe;
    BareRunIsAdmissible(cfg, sys, moves);
    BareIsNotSkipped(cfg, After(cfg, sys, moves));
    LivenessSafety(cfg, sys, moves);
  }
}
