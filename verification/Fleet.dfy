/** Several watchers over one store, one per cluster and one for the local services: whatever they handle, in any
    order and with any failures, the members of a federated service are those whose last write was a join. */
module Fleet {
  import opened Strings
  import opened Kubernetes
  import opened Mirror
  import opened StatusList
  import opened Federation
  import opened Api
  import opened HeadlessMirror
  import opened Handlers
  import opened Machine
  import opened FederatedHandlers
  import opened Liveness
  import M = Membership
  import Refinement

  type State = Api.State

  /* ---------- the mirrors' handlers leave other services alone ---------- */

  predicate SameService(pre: State, post: State, n: Key) {
    && (n in post.services <==> n in pre.services) && (n in pre.services ==> post.services[n] == pre.services[n])
    && post.now == pre.now
  }

  /** No mirror of the link has this name. */
  ghost predicate Avoids(cfg: Config, n: Key) {
    forall j :: MirrorKey(cfg.link, j) != n
  }

  /** Labels by which no watcher takes a service for one of its own. */
  predicate Unmarked(labels: Labels) {
    CLUSTER_NAME !in labels && HEADLESS_NAME !in labels
  }

  ghost predicate Foreign(cfg: Config, st: State, n: Key) {
    Avoids(cfg, n) && (n in st.services ==> Unmarked(st.services[n].labels))
  }

  lemma CallsSpare(cfg: Config, env: Env, st: State, k: Key, svc: Service, ep: Endpoints, n: Key)
    requires k != n
    ensures SameService(st, CreateService(env, st, k, svc).0, n) && SameService(st, UpdateService(env, st, k, svc).0, n)
    ensures SameService(st, DeleteService(env, st, k).0, n) && SameService(st, EnsureNamespace(cfg, env, st, k.ns).0, n)
    ensures SameService(st, CreateEndpoints(env, st, k, ep).0, n)
    ensures SameService(st, UpdateEndpoints(env, st, k, ep).0, n)
    ensures SameService(st, DeleteEndpoints(env, st, k).0, n)
  {
    hide Stamp;
  }

  lemma StatusSpares(cfg: Config, st: State, k: Key, c: Condition, n: Key)
    ensures SameService(st, PutMirrorStatus(cfg, st, k, c), n)
  {
    hide Update;
  }

  lemma EndpointMirrorSpares(cfg: Config, env: Env, st: State, src: Source, host: string, n: Key)
    requires Avoids(cfg, n)
    ensures SameService(st, CreateEndpointMirror(cfg, env, st, src, host).st, n)
  {
    hide ResolveGateway, EndpointPorts, NewEndpointMirror, NewEndpointMirrorEndpoints, ByLiveness;
    hide CreateService, CreateEndpoints, DeleteService;
    var k := HostKey(cfg, src, host);
    assert k == MirrorKey(cfg.link, Key(src.key.ns, host));
    var addresses, ports := ResolveGateway(cfg.link, env.lookup), EndpointPorts(cfg.link, src.svc.ports);
    if addresses.Some? && ports.Some? {
      var svc := NewEndpointMirror(cfg, src, host);
      var made := NewEndpointMirrorEndpoints(cfg, src, host, addresses.value, ports.value);
      CallsSpare(cfg, env, st, k, svc, made, n);
      var st1 := CreateService(env, st, k, svc).0;
      CallsSpare(cfg, env, st1, k, svc, ByLiveness(st1, made), n);
      CallsSpare(cfg, env, CreateEndpoints(env, st1, k, ByLiveness(st1, made)).0, k, svc, made, n);
    }
  }

  lemma {:induction false} SyncAddressesSpare(cfg: Config, env: Env, src: Source, addresses: seq<Address>,
                                              acc: Sync<Address>, n: Key)
    requires Avoids(cfg, n)
    ensures SameService(acc.st, SyncAddresses(cfg, env, src, addresses, acc).st, n)
    decreases |addresses|
  {
    hide CreateEndpointMirror, Avoids, HostKey;
    if addresses != [] && acc.outcome == Done {
      EndpointMirrorSpares(cfg, env, acc.st, src, addresses[0].hostname, n);
      SyncAddressesSpare(cfg, env, src, addresses[1..], SyncAddress(cfg, env, src, addresses[0], acc), n);
    }
  }

  lemma {:induction false} SyncSubsetsSpare(cfg: Config, env: Env, src: Source, subsets: seq<Subset>, acc: Sync<Subset>,
                                            n: Key)
    requires Avoids(cfg, n)
    ensures SameService(acc.st, SyncSubsets(cfg, env, src, subsets, acc).st, n)
    decreases |subsets|
  {
    hide SyncAddresses, Avoids;
    if subsets != [] && acc.outcome == Done {
      SyncAddressesSpare(cfg, env, src, subsets[0].addresses, Sync(acc.st, acc.wanted, [], Done), n);
      SyncSubsetsSpare(cfg, env, src, subsets[1..], SyncSubset(cfg, env, src, subsets[0], acc), n);
    }
  }

  lemma {:induction false} MakeAddressesSpare(cfg: Config, env: Env, src: Source, addresses: seq<Address>,
                                              acc: Sync<Address>, n: Key)
    requires Avoids(cfg, n)
    ensures SameService(acc.st, MakeAddresses(cfg, env, src, addresses, acc).st, n)
    decreases |addresses|
  {
    hide CreateEndpointMirror, Avoids;
    if addresses != [] && acc.outcome == Done {
      EndpointMirrorSpares(cfg, env, acc.st, src, addresses[0].hostname, n);
      MakeAddressesSpare(cfg, env, src, addresses[1..], MakeAddress(cfg, env, src, addresses[0], acc), n);
    }
  }

  lemma {:induction false} MakeSubsetsSpare(cfg: Config, env: Env, src: Source, subsets: seq<Subset>, acc: Sync<Subset>,
                                            n: Key)
    requires Avoids(cfg, n)
    ensures SameService(acc.st, MakeSubsets(cfg, env, src, subsets, acc).st, n)
    decreases |subsets|
  {
    hide MakeAddresses, Avoids;
    if subsets != [] && acc.outcome == Done {
      MakeAddressesSpare(cfg, env, src, subsets[0].addresses, Sync(acc.st, {}, [], Done), n);
      MakeSubsetsSpare(cfg, env, src, subsets[1..], MakeSubset(cfg, env, src, subsets[0], acc), n);
    }
  }

  lemma PurgeSpares(env: Env, st: State, keys: set<Key>, n: Key)
    requires n !in keys
    ensures SameService(st, Purge(env, st, keys), n)
  {
  }

  lemma GatewayEndpointsSpare(cfg: Config, remote: Remote, env: Env, st: State, k: Key, svc: Service, n: Key)
    requires Avoids(cfg, n)
    ensures SameService(st, CreateGatewayEndpoints(cfg, remote, env, st, k, svc).0, n)
  {
    hide MirrorKey, ResolveGateway, EndpointPorts, NewGatewayEndpoints, ByLiveness;
  }

  lemma SyncHeadlessSpares(cfg: Config, env: Env, st: State, src: Source, exported: Endpoints, local: Endpoints, n: Key)
    requires Foreign(cfg, st, n)
    ensures SameService(st, SyncHeadless(cfg, env, st, src, exported, local).0, n)
  {
    hide SyncSubsets, MirrorKey, Avoids, ByLiveness, Purge;
    SyncSubsetsSpare(cfg, env, src, exported.subsets, Sync(st, {}, [], Done), n);
    var r := SyncSubsets(cfg, env, src, exported.subsets, Sync(st, {}, [], Done));
    PurgeSpares(env, r.st, Unwanted(r.st, MirrorKey(cfg.link, src.key).name, r.wanted), n);
  }

  lemma CreateHeadlessSpares(cfg: Config, env: Env, st: State, src: Source, exported: Endpoints, n: Key)
    requires Avoids(cfg, n)
    ensures SameService(st, CreateHeadlessService(cfg, env, st, src, exported).st, n)
    ensures SameService(st, CreateHeadlessEndpoints(cfg, env, st, src, exported).0, n)
  {
    hide MakeSubsets, MirrorKey, NewMirror, Stamp, ExportsAsHeadless, EndpointLabels, GatewayAnnotations, FqName;
    hide EnsureNamespace;
    EnsureNamespaceFacts(cfg, env, st, src.key.ns);
    MakeSubsetsSpare(cfg, env, src, exported.subsets, Sync(st, {}, [], Done), n);
  }

  lemma HeadlessSpares(cfg: Config, remote: Remote, env: Env, st: State, k: Key, exported: Endpoints, n: Key)
    requires Foreign(cfg, st, n)
    ensures SameService(st, HandleHeadless(cfg, remote, env, st, k, exported).0, n)
  {
    hide Avoids, MirrorKey, CreateHeadlessService, CreateHeadlessEndpoints, CreateGatewayEndpoints, SyncHeadless;
    if k in remote.services {
      var src := Source(k, remote.services[k], exported.version);
      var mk := MirrorKey(cfg.link, k);
      CreateHeadlessSpares(cfg, env, st, src, exported, n);
      var made := if mk in st.services then Created(st, st.services[mk].clusterIP, Done)
                  else CreateHeadlessService(cfg, env, st, src, exported);
      GatewayEndpointsSpare(cfg, remote, env, made.st, k, src.svc, n);
      CreateHeadlessSpares(cfg, env, made.st, src, exported, n);
      if mk in made.st.endpoints {
        SyncHeadlessSpares(cfg, env, made.st, src, exported, made.st.endpoints[mk], n);
      }
    }
  }

  lemma EndpointsSpare(cfg: Config, remote: Remote, env: Env, st: State, k: Key, exported: Endpoints, n: Key)
    requires Foreign(cfg, st, n)
    ensures SameService(st, HandleEndpoints(cfg, remote, env, st, k, exported).0, n)
  {
    hide Foreign, HandleHeadless, MirrorKey, ResolveGateway, EndpointPorts, Readiness, GatewaySubsets, HasReady;
    hide IsHeadlessEndpoints;
    HeadlessSpares(cfg, remote, env, st, k, exported, n);
  }

  lemma ExportSpares(cfg: Config, remote: Remote, env: Env, st: State, k: Key, svc: Service, n: Key)
    requires Avoids(cfg, n)
    ensures SameService(st, HandleExported(cfg, remote, env, st, k, svc).0, n)
  {
    hide MirrorKey, NewMirror, IsRemoteDiscovery, CreateGatewayEndpoints, Mirrored, Failure, Headless;
    hide EnsureNamespace, CreateService, PutMirrorStatus;
    var mk := MirrorKey(cfg.link, k);
    var svc', none := NewMirror(cfg, k, svc, ""), Endpoints(map[], map[], [], 0);
    SameNamespace(cfg, k);
    CallsSpare(cfg, env, st, mk, svc', none, n);
    var st1 := EnsureNamespace(cfg, env, st, k.ns).0;
    CallsSpare(cfg, env, st1, mk, svc', none, n);
    var st2 := CreateService(env, st1, mk, svc').0;
    GatewayEndpointsSpare(cfg, remote, env, st2, k, svc, n);
    forall st', c: Condition | SameService(st, st', n) ensures SameService(st, PutMirrorStatus(cfg, st', k, c), n) {
      StatusSpares(cfg, st', k, c, n);
    }
  }

  lemma UpdateModeSpares(cfg: Config, remote: Remote, env: Env, st: State, ev: Event, n: Key)
    requires ev.Updated? && Avoids(cfg, n)
    ensures SameService(st, UpdateMode(cfg, remote, env, st, ev).0, n)
  {
    hide MirrorKey, IsRemoteDiscovery, CreateGatewayEndpoints, Failure, ByLiveness, ResolveGateway, EndpointPorts;
    hide GatewaySubsets;
    hide DeleteEndpoints, UpdateEndpoints, PutMirrorStatus;
    var mk, failed := MirrorKey(cfg.link, ev.key), Failure(REASON_ERROR);
    var none := Endpoints(map[], map[], [], 0);
    StatusSpares(cfg, st, ev.key, failed, n);
    if IsRemoteDiscovery(cfg.link, ev.svc.labels) {
      CallsSpare(cfg, env, st, mk, ev.svc, none, n);
      StatusSpares(cfg, DeleteEndpoints(env, st, mk).0, ev.key, failed, n);
    } else if ev.localEndpoints.None? {
      GatewayEndpointsSpare(cfg, remote, env, st, ev.key, ev.svc, n);
      StatusSpares(cfg, CreateGatewayEndpoints(cfg, remote, env, st, ev.key, ev.svc).0, ev.key, failed, n);
    } else {
      var addresses, ports := ResolveGateway(cfg.link, env.lookup), EndpointPorts(cfg.link, ev.svc.ports);
      if addresses.Some? && ports.Some? {
        var ep := ev.localEndpoints.value;
        var ep' := Endpoints(ep.labels, ep.annotations[GATEWAY_IDENTITY := cfg.link.gatewayIdentity],
                             GatewaySubsets(addresses.value, ports.value), ep.version);
        CallsSpare(cfg, env, st, mk, ev.svc, ByLiveness(st, ep'), n);
        StatusSpares(cfg, UpdateEndpoints(env, st, mk, ByLiveness(st, ep')).0, ev.key, failed, n);
      }
    }
  }

  lemma UpdateSpares(cfg: Config, remote: Remote, env: Env, st: State, ev: Event, n: Key)
    requires ev.Updated? && Avoids(cfg, n)
    ensures SameService(st, HandleUpdated(cfg, remote, env, st, ev).st, n)
  {
    hide MirrorKey, UpdatedLocal, Mirrored, Failure, UpdateMode, UpdateService, PutMirrorStatus;
    UpdateModeSpares(cfg, remote, env, st, ev, n);
    var st1 := UpdateMode(cfg, remote, env, st, ev).0;
    CallsSpare(cfg, env, st1, MirrorKey(cfg.link, ev.key), UpdatedLocal(cfg, ev), Endpoints(map[], map[], [], 0), n);
    var (st2, updated) := UpdateService(env, st1, MirrorKey(cfg.link, ev.key), UpdatedLocal(cfg, ev));
    var c := if updated == Ok then Mirrored(MirrorKey(cfg.link, ev.key)) else Failure(REASON_ERROR);
    StatusSpares(cfg, st2, ev.key, c, n);
  }

  lemma UnexportSpares(cfg: Config, env: Env, st: State, k: Key, n: Key)
    requires Foreign(cfg, st, n)
    ensures SameService(st, HandleUnexported(cfg, env, st, k).0, n)
  {
    hide MirrorKey, Delete, Headless, Purge;
    var st1 := DropMirrorStatus(cfg, st, k);
    PurgeSpares(env, st1, EndpointMirrorsOf(st1, MirrorKey(cfg.link, k).name), n);
    PurgeSpares(env, st1, {}, n);
  }

  lemma SweepsSpare(cfg: Config, remote: Remote, env: Env, st: State, n: Key)
    requires Foreign(cfg, st, n)
    ensures SameService(st, HandleGc(cfg, remote, env, st).0, n)
    ensures SameService(st, HandleCleanup(cfg, env, st).0, n)
    ensures SameService(st, HandleRepair(cfg, remote, env, st).0, n)
  {
    hide Avoids, Purge, OriginOf, LinkEndpoints, HandleRepair;
    PurgeSpares(env, st, Orphans(cfg, remote, env, st), n);
    PurgeSpares(env, st, LinkServices(cfg, st), n);
    RepairKeepsServices(cfg, remote, env, st);
  }

  lemma DecisionsSpare(cfg: Config, env: Env, st: State, ev: Event, n: Key)
    requires ev.OnAdd? || ev.OnUpdate?
    ensures SameService(st, CreateOrUpdate(cfg, env, st, ev).st, n)
  {
    hide MirrorDecision, FederatedKey, IsFederatedMember, Update;
  }

  /** Except for the federated events, no handler touches a service that is not named or labelled as the link's. */
  lemma HandleSpares(cfg: Config, remote: Remote, env: Env, st: State, ev: Event, n: Key)
    requires Foreign(cfg, st, n) && !Refinement.Neutral(ev)
    ensures SameService(st, Handle(cfg, remote, env, st, ev).st, n)
  {
    hide CreateOrUpdate, HandleEndpoints, HandleExported, HandleUpdated, HandleUnexported, HandleCreateFederated;
    hide HandleJoin;
    hide HandleLeave, HandleCleanup, HandleGc, HandleRepair, Avoids, OnAdds, IsFederatedMember, Desired;
    SweepsSpare(cfg, remote, env, st, n);
    match ev
    case OnAdd(_, _) => DecisionsSpare(cfg, env, st, ev, n);
    case OnUpdate(_, _) => DecisionsSpare(cfg, env, st, ev, n);
    case OnAddEndpoints(k, ep) => EndpointsSpare(cfg, remote, env, st, k, ep, n);
    case OnUpdateEndpoints(k, ep) => EndpointsSpare(cfg, remote, env, st, k, ep, n);
    case Exported(k, svc) => ExportSpares(cfg, remote, env, st, k, svc, n);
    case Updated(_, _, _, _) => UpdateSpares(cfg, remote, env, st, ev, n);
    case Unexported(k) => UnexportSpares(cfg, env, st, k, n);
    case _ =>
  }

  /* ---------- one event and one federated service ---------- */

  predicate CleanRemote(k: Key, remote: Remote) {
    k in remote.services ==> M.CarriesNoDiscovery(remote.services[k].annotations)
  }

  /** An event about k brings no discovery annotation of its own; a join of k holds a copy of the federated service. */
  predicate EventSound(st: State, cluster: string, k: Key, ev: Event) {
    && ((ev.OnAdd? || ev.OnUpdate? || ev.CreateFederated?) && ev.key == k ==> M.CarriesNoDiscovery(ev.svc.annotations))
    && (ev.JoinFederated? && ev.key == k ==>
          M.Genuine(k.name, Project(st, k, []), M.PendingJoin(cluster, ev.local)) && Unmarked(ev.local.labels))
  }

  /** The federated service of k is as the protocol left it, and nothing marks it as any link's own. */
  ghost predicate ObjectSound(st: State, k: Key, last: set<string>) {
    && M.Invariant(k.name, Project(st, k, []), last)
    && UnmarkedAt(st, k)
  }

  /** A cluster enters when it writes the object on a create or a join, and exits when it writes or deletes it on a
      leave. */
  function Wrote(before: State, after: State, k: Key, cluster: string, ev: Event): M.Commit {
    if Project(after, k, []).svc == Project(before, k, []).svc then M.Nothing
    else if ev.LeaveFederated? then M.Exited(cluster) else M.Entered(cluster)
  }

  /** What every handled event keeps, for the object, and for a join queued at any watcher. */
  ghost predicate Keeps(st: State, post: State, k: Key, last: set<string>, commit: M.Commit, p: M.PendingJoin) {
    && ObjectSound(post, k, M.Record(last, commit))
    && (M.Genuine(k.name, Project(st, k, []), p) ==> M.Genuine(k.name, Project(post, k, []), p))
  }

  lemma SparedKeeps(cfg: Config, st: State, post: State, k: Key, last: set<string>, ev: Event, p: M.PendingJoin)
    requires ObjectSound(st, k, last) && SameService(st, post, FederatedKey(k))
    ensures Keeps(st, Later(post), k, last, Wrote(st, Later(post), k, cfg.link.cluster, ev), p)
  {
    hide FederatedKey, M.EncodesSet, JoinedAnnotations;
  }

  lemma WithJoins(name: string, st: M.State, last: set<string>, joins: seq<M.PendingJoin>)
    requires M.Invariant(name, st, last) && forall i :: 0 <= i < |joins| ==> M.Genuine(name, st, joins[i])
    ensures M.Invariant(name, st.(joins := joins), last)
  {
    hide M.EncodesSet, JoinedAnnotations;
  }

  lemma CreateKeeps(cfg: Config, env: Env, st: State, k: Key, svc: Service, last: set<string>,
                    joins: seq<M.PendingJoin>)
    requires M.ValidName(k.name) && ',' !in cfg.link.cluster && M.CarriesNoDiscovery(svc.annotations) && !Headless(svc)
    requires ObjectSound(st, k, last) && M.Invariant(k.name, Project(st, k, joins), last)
    ensures var post := Later(HandleCreateFederated(cfg, env, st, k, svc).0);
            M.Invariant(k.name, Project(post, k, joins),
                        M.Record(last, Wrote(st, post, k, cfg.link.cluster, CreateFederated(k, svc))))
  {
    hide HandleCreateFederated, M.Exec, M.Invariant, FederatedKey, CreateGoesThrough, Headless;
    var step := M.TryCreate(cfg.link.cluster, svc, env.assignIP(FederatedKey(k)), CreateGoesThrough(cfg, env, st, k));
    CreateFollows(cfg, env, st, k, svc, joins);
    StepKeeps(k.name, Project(st, k, joins), last, step);
  }

  lemma StepKeeps(name: string, st: M.State, last: set<string>, step: M.Step)
    requires M.ValidName(name) && M.Invariant(name, st, last) && M.ValidStep(step)
    ensures var (st', commit) := M.Exec(name, st, step);
            && M.Invariant(name, st', M.Record(last, commit))
            && commit == if st'.svc == st.svc then M.Nothing
                         else if step.TryLeave? then M.Exited(step.cluster)
                         else M.Entered(if step.TryJoin? then st.joins[step.index].cluster else step.cluster)
  {
    hide M.Exec, M.EncodesSet, M.Genuine;
    M.StepKeepsInvariant(name, st, last, step);
    M.CommitShows(name, st, step);
  }

  lemma LeaveKeeps(cfg: Config, env: Env, st: State, k: Key, last: set<string>, joins: seq<M.PendingJoin>)
    requires M.ValidName(k.name) && ',' !in cfg.link.cluster && M.Invariant(k.name, Project(st, k, joins), last)
    ensures var post := Later(HandleLeave(cfg, env, st, k).0);
            M.Invariant(k.name, Project(post, k, joins),
                        M.Record(last, Wrote(st, post, k, cfg.link.cluster, LeaveFederated(k))))
  {
    hide HandleLeave, M.Exec, M.Invariant, FederatedKey, LeaveGoesThrough;
    LeaveFollows(cfg, env, st, k, joins);
    StepKeeps(k.name, Project(st, k, joins), last, M.TryLeave(cfg.link.cluster, LeaveGoesThrough(cfg, env, st, k)));
  }

  lemma JoinKeeps(cfg: Config, env: Env, st: State, ev: Event, last: set<string>, others: seq<M.PendingJoin>)
    requires ev.JoinFederated? && !Headless(ev.svc)
    requires var own := M.PendingJoin(cfg.link.cluster, ev.local);
             M.ValidName(ev.key.name) && M.Invariant(ev.key.name, Project(st, ev.key, [own] + others), last)
    ensures var out := HandleJoin(cfg, env, st, ev); var post := Later(out.st);
            && out.event.JoinFederated?
            && (var again := M.PendingJoin(cfg.link.cluster, out.event.local);
                var joins := (if out.outcome == Done || out.outcome == Crash then [] else [again]) + others;
                M.Invariant(ev.key.name, Project(post, ev.key, joins),
                            M.Record(last, Wrote(st, post, ev.key, cfg.link.cluster, ev))))
  {
    hide HandleJoin, M.Exec, M.Invariant, FederatedKey, Headless;
    var own := M.PendingJoin(cfg.link.cluster, ev.local);
    var joins := [own] + others;
    JoinFollows(cfg, env, st, ev, joins, 0);
    StepKeeps(ev.key.name, Project(st, ev.key, joins), last,
              M.TryJoin(0, env.ok(UpdateServiceCall(FederatedKey(ev.key)))));
    var out := HandleJoin(cfg, env, st, ev);
    assert M.Remove(joins, 0) == [] + others;
    if out.outcome != Done && out.outcome != Crash {
      var again := M.PendingJoin(cfg.link.cluster, out.event.local);
      assert joins[0 := again] == [again] + others;
    }
  }

  predicate UnmarkedAt(st: State, k: Key) {
    FederatedKey(k) in st.services ==> Unmarked(st.services[FederatedKey(k)].labels)
  }

  lemma CreateUnmarked(cfg: Config, env: Env, st: State, k: Key, svc: Service)
    requires UnmarkedAt(st, k)
    ensures UnmarkedAt(HandleCreateFederated(cfg, env, st, k, svc).0, k)
  {
    hide CreatedAnnotations, RemapPorts, Update, FederatedKey, Mirrored, Failure, Headless, CommonLabels;
    hide EnsureNamespace, Unmarked;
    CommonIsUnmarked(svc.labels);
    EnsureNamespaceFacts(cfg, env, st, k.ns);
  }

  lemma LeaveUnmarked(cfg: Config, env: Env, st: State, k: Key)
    requires UnmarkedAt(st, k)
    ensures UnmarkedAt(HandleLeave(cfg, env, st, k).0, k)
  {
    hide LeftAnnotations, NoMembers, Delete, FederatedKey;
  }

  lemma JoinUnmarked(cfg: Config, env: Env, st: State, ev: Event)
    requires ev.JoinFederated? && UnmarkedAt(st, ev.key) && Unmarked(ev.local.labels)
    ensures var out := HandleJoin(cfg, env, st, ev);
            UnmarkedAt(out.st, ev.key) && (out.event.JoinFederated? ==> Unmarked(out.event.local.labels))
  {
    hide JoinedAnnotations, Update, FederatedKey, Mirrored, Failure, Headless;
  }

  lemma CommonIsUnmarked(labels: Labels)
    ensures Unmarked(CommonLabels(labels))
  {
    ReservedKeys();
  }

  ghost predicate Handled(cfg: Config, st: State, ev: Event, k: Key, last: set<string>, out: Out, p: M.PendingJoin) {
    && Keeps(st, Later(out.st), k, last, Wrote(st, Later(out.st), k, cfg.link.cluster, ev), p)
    && (out.outcome == Retry ==> EventSound(Later(out.st), cfg.link.cluster, k, out.event))
    && out.st.now == st.now
  }

  lemma CreateHandled(cfg: Config, env: Env, st: State, k: Key, svc: Service, last: set<string>, p: M.PendingJoin)
    requires M.ValidName(k.name) && ',' !in cfg.link.cluster && ObjectSound(st, k, last)
    requires EventSound(st, cfg.link.cluster, k, CreateFederated(k, svc))
    ensures Handled(cfg, st, CreateFederated(k, svc), k, last,
                    Plain(HandleCreateFederated(cfg, env, st, k, svc), CreateFederated(k, svc)), p)
  {
    hide HandleCreateFederated, FederatedKey, M.EncodesSet, JoinedAnnotations, M.ValidName, Unmarked;
    var ev := CreateFederated(k, svc);
    if Headless(svc) {
      HeadlessCreate(cfg, env, st, k, svc);
      SparedKeeps(cfg, st, HandleCreateFederated(cfg, env, st, k, svc).0, k, last, ev, p);
    } else {
      var joins := if M.Genuine(k.name, Project(st, k, []), p) then [p] else [];
      WithJoins(k.name, Project(st, k, []), last, joins);
      CreateKeeps(cfg, env, st, k, svc, last, joins);
      CreateUnmarked(cfg, env, st, k, svc);
      var post := Later(HandleCreateFederated(cfg, env, st, k, svc).0);
      WithoutJoins(k.name, Project(post, k, joins), M.Record(last, Wrote(st, post, k, cfg.link.cluster, ev)));
      CreateKeepsClock(cfg, env, st, k, svc);
      if joins != [] { assert joins[0] == p; }
    }
  }

  lemma HeadlessCreate(cfg: Config, env: Env, st: State, k: Key, svc: Service)
    requires Headless(svc)
    ensures SameService(st, HandleCreateFederated(cfg, env, st, k, svc).0, FederatedKey(k))
  {
    hide Update, FederatedKey, Failure;
  }

  lemma CreateKeepsClock(cfg: Config, env: Env, st: State, k: Key, svc: Service)
    ensures HandleCreateFederated(cfg, env, st, k, svc).0.now == st.now
  {
    hide CreatedAnnotations, RemapPorts, Update, FederatedKey, Mirrored, Failure, Headless, CommonLabels, Stamp;
  }

  lemma WithoutJoins(name: string, st: M.State, last: set<string>)
    requires M.Invariant(name, st, last)
    ensures M.Invariant(name, st.(joins := []), last)
    ensures forall i :: 0 <= i < |st.joins| ==> M.Genuine(name, st.(joins := []), st.joins[i])
  {
    hide M.EncodesSet, JoinedAnnotations;
  }

  lemma LeaveHandled(cfg: Config, env: Env, st: State, k: Key, last: set<string>, p: M.PendingJoin)
    requires M.ValidName(k.name) && ',' !in cfg.link.cluster && ObjectSound(st, k, last)
    ensures Handled(cfg, st, LeaveFederated(k), k, last, Plain(HandleLeave(cfg, env, st, k), LeaveFederated(k)), p)
  {
    hide HandleLeave, FederatedKey, M.EncodesSet, JoinedAnnotations, M.ValidName, Unmarked;
    var ev := LeaveFederated(k);
    var joins := if M.Genuine(k.name, Project(st, k, []), p) then [p] else [];
    WithJoins(k.name, Project(st, k, []), last, joins);
    LeaveKeeps(cfg, env, st, k, last, joins);
    LeaveUnmarked(cfg, env, st, k);
    var post := Later(HandleLeave(cfg, env, st, k).0);
    WithoutJoins(k.name, Project(post, k, joins), M.Record(last, Wrote(st, post, k, cfg.link.cluster, ev)));
    LeaveKeepsClock(cfg, env, st, k);
    if joins != [] { assert joins[0] == p; }
  }

  lemma LeaveKeepsClock(cfg: Config, env: Env, st: State, k: Key)
    ensures HandleLeave(cfg, env, st, k).0.now == st.now
  {
    hide LeftAnnotations, NoMembers, Delete, FederatedKey;
  }

  lemma JoinHandled(cfg: Config, env: Env, st: State, ev: Event, k: Key, last: set<string>, p: M.PendingJoin)
    requires ev.JoinFederated? && ev.key == k
    requires M.ValidName(k.name) && ObjectSound(st, k, last) && EventSound(st, cfg.link.cluster, k, ev)
    ensures Handled(cfg, st, ev, k, last, HandleJoin(cfg, env, st, ev), p)
  {
    hide HandleJoin, FederatedKey, M.EncodesSet, JoinedAnnotations, M.ValidName, Unmarked;
    JoinKeepsClock(cfg, env, st, ev);
    if Headless(ev.svc) {
      SparedKeeps(cfg, st, HandleJoin(cfg, env, st, ev).st, k, last, ev, p);
    } else {
      var own := M.PendingJoin(cfg.link.cluster, ev.local);
      var others := if M.Genuine(k.name, Project(st, k, []), p) then [p] else [];
      WithJoins(k.name, Project(st, k, []), last, [own] + others);
      JoinKeeps(cfg, env, st, ev, last, others);
      JoinUnmarked(cfg, env, st, ev);
      var out := HandleJoin(cfg, env, st, ev);
      var joins := (if out.outcome == Done || out.outcome == Crash then []
                    else [M.PendingJoin(cfg.link.cluster, out.event.local)]) + others;
      WithoutJoins(k.name, Project(Later(out.st), k, joins),
                   M.Record(last, Wrote(st, Later(out.st), k, cfg.link.cluster, ev)));
      if others != [] { assert joins[|joins| - 1] == p; }
      if out.outcome == Retry { assert joins[0] == M.PendingJoin(cfg.link.cluster, out.event.local); }
    }
  }

  lemma JoinKeepsClock(cfg: Config, env: Env, st: State, ev: Event)
    requires ev.JoinFederated?
    ensures var out := HandleJoin(cfg, env, st, ev);
            out.st.now == st.now && out.event.JoinFederated? && out.event.key == ev.key
    ensures Headless(ev.svc) ==>
              SameService(st, HandleJoin(cfg, env, st, ev).st, FederatedKey(ev.key))
              && HandleJoin(cfg, env, st, ev).outcome == Fail
  {
    hide JoinedAnnotations, Update, FederatedKey, Mirrored, Failure;
  }

  lemma FederatedKeyInjective(j: Key, k: Key)
    requires FederatedKey(j) == FederatedKey(k)
    ensures j == k
  {
    assert FederatedName(j.name)[..|j.name|] == j.name && FederatedName(k.name)[..|k.name|] == k.name;
  }

  lemma OthersHandled(cfg: Config, remote: Remote, env: Env, st: State, ev: Event, k: Key, last: set<string>,
                      p: M.PendingJoin)
    requires !(Refinement.Neutral(ev) && ev.key == k) && !FederatedLike(cfg.link.cluster)
    requires ObjectSound(st, k, last) && EventSound(st, cfg.link.cluster, k, ev)
    ensures Handled(cfg, st, ev, k, last, Handle(cfg, remote, env, st, ev), p)
  {
    hide Handle, FederatedKey, FederatedLike, M.Invariant, MirrorKey, M.Genuine;
    var out := Handle(cfg, remote, env, st, ev);
    var fk := FederatedKey(k);
    if Refinement.Neutral(ev) {
      Refinement.FederatedAwayFrom(cfg, remote, env, st, ev);
      if FederatedKey(ev.key) == fk { FederatedKeyInjective(ev.key, k); }
      assert Refinement.SameAt(st, out.st, fk);
      NeutralKeepsClock(cfg, remote, env, st, ev);
    } else {
      forall j ensures MirrorKey(cfg.link, j) != fk { MirrorAvoidsFederated(cfg.link, j, k); }
      HandleSpares(cfg, remote, env, st, ev, fk);
      EventStays(cfg, remote, env, st, ev);
    }
    SparedKeeps(cfg, st, out.st, k, last, ev, p);
  }

  lemma NeutralKeepsClock(cfg: Config, remote: Remote, env: Env, st: State, ev: Event)
    requires Refinement.Neutral(ev)
    ensures Handle(cfg, remote, env, st, ev).st.now == st.now
    ensures var out := Handle(cfg, remote, env, st, ev); Refinement.Neutral(out.event) && out.event.key == ev.key
  {
    hide HandleCreateFederated, HandleJoin, HandleLeave;
    match ev
    case CreateFederated(k, svc) => CreateKeepsClock(cfg, env, st, k, svc);
    case JoinFederated(_, _, _) => JoinKeepsClock(cfg, env, st, ev);
    case LeaveFederated(k) => LeaveKeepsClock(cfg, env, st, k);
  }

  lemma EventStays(cfg: Config, remote: Remote, env: Env, st: State, ev: Event)
    requires !Refinement.Neutral(ev)
    ensures var out := Handle(cfg, remote, env, st, ev); if ev.Updated? then out.event.Updated? else out.event == ev
  {
    hide MirrorDecision, FederatedDecision, HandleEndpoints, HandleExported, UpdateMode, UpdatedLocal, UpdateService;
    hide HandleUnexported, HandleCreateFederated, HandleJoin, PutMirrorStatus, Mirrored, Failure;
    hide HandleLeave, HandleCleanup, HandleGc, HandleRepair, OnAdds, IsFederatedMember, Desired, MirrorKey;
  }

  /** Handling any event keeps the federated service of k, and every queued join of k, sound. */
  lemma EventHandled(cfg: Config, remote: Remote, env: Env, st: State, ev: Event, k: Key, last: set<string>,
                     p: M.PendingJoin)
    requires M.ValidName(k.name) && ',' !in cfg.link.cluster && !FederatedLike(cfg.link.cluster)
    requires ObjectSound(st, k, last) && EventSound(st, cfg.link.cluster, k, ev)
    ensures Handled(cfg, st, ev, k, last, Handle(cfg, remote, env, st, ev), p)
  {
    hide CreateOrUpdate, HandleDelete, HandleEndpoints, HandleExported, HandleUpdated, HandleUnexported;
    hide HandleCreateFederated;
    hide HandleJoin, HandleLeave, HandleCleanup, HandleGc, HandleRepair, HandleNamespaceAdded;
    hide Handled, ObjectSound, EventSound, FederatedLike, M.ValidName;
    if !(Refinement.Neutral(ev) && ev.key == k) {
      OthersHandled(cfg, remote, env, st, ev, k, last, p);
    } else {
      match ev
      case CreateFederated(_, svc) => CreateHandled(cfg, env, st, k, svc, last, p);
      case JoinFederated(_, _, _) => JoinHandled(cfg, env, st, ev, k, last, p);
      case LeaveFederated(_) => LeaveHandled(cfg, env, st, k, last, p);
    }
  }

  /* ---------- what an event queues ---------- */

  lemma DecisionSpawnsSound(cfg: Config, env: Env, st: State, ev: Event, k: Key, last: set<string>)
    requires (ev.OnAdd? || ev.OnUpdate?) && M.ValidName(k.name) && ',' !in cfg.link.cluster
    requires ObjectSound(st, k, last) && EventSound(st, cfg.link.cluster, k, ev)
    ensures var spawned := CreateOrUpdate(cfg, env, st, ev).spawned;
            forall i :: 0 <= i < |spawned| ==> EventSound(st, cfg.link.cluster, k, spawned[i])
  {
    hide MirrorDecision, FederatedDecision, EventSound, ObjectSound, M.ValidName;
    MirrorDecisionSound(cfg, env, st, ev.key, ev.svc, k);
    FederatedDecisionSound(cfg, env, st, ev, k, last);
  }

  lemma FederatedDecisionSound(cfg: Config, env: Env, st: State, ev: Event, k: Key, last: set<string>)
    requires (ev.OnAdd? || ev.OnUpdate?) && M.ValidName(k.name) && ',' !in cfg.link.cluster
    requires ObjectSound(st, k, last) && EventSound(st, cfg.link.cluster, k, ev)
    ensures var events := FederatedDecision(cfg, env, st, ev.key, ev.svc).1;
            |events| <= 1 && (events != [] ==> EventSound(st, cfg.link.cluster, k, events[0]))
  {
    hide FederatedKey, IsFederatedMember, PutFederatedStatus, M.EncodesSet, JoinedAnnotations, Unmarked, M.ValidName;
    hide M.CarriesNoDiscovery;
    if FederatedKey(k) in st.services {
      M.MembersNeedAnnotations(k.name, Project(st, k, []), last);
    }
  }

  lemma MirrorDecisionSound(cfg: Config, env: Env, st: State, j: Key, svc: Service, k: Key)
    ensures var events := MirrorDecision(cfg, env, st, j, svc).0;
            |events| <= 1 && (events != [] ==> EventSound(st, cfg.link.cluster, k, events[0]))
  {
    hide MirrorKey, Desired, FormatNat;
  }

  lemma {:induction false} OnAddsSound(cfg: Config, remote: Remote, st: State, keys: seq<Key>, k: Key)
    requires CleanRemote(k, remote)
    ensures forall i :: 0 <= i < |OnAdds(remote, keys)| ==> EventSound(st, cfg.link.cluster, k, OnAdds(remote, keys)[i])
  {
    if keys != [] {
      OnAddsSound(cfg, remote, st, keys[..|keys| - 1], k);
    }
  }

  lemma SpawnsSound(cfg: Config, remote: Remote, env: Env, st: State, ev: Event, k: Key, last: set<string>)
    requires M.ValidName(k.name) && ',' !in cfg.link.cluster && CleanRemote(k, remote)
    requires ObjectSound(st, k, last) && EventSound(st, cfg.link.cluster, k, ev)
    ensures var spawned := Handle(cfg, remote, env, st, ev).spawned;
            forall i :: 0 <= i < |spawned| ==> EventSound(st, cfg.link.cluster, k, spawned[i])
  {
    hide CreateOrUpdate, HandleEndpoints, HandleExported, HandleUpdated, HandleUnexported, HandleCreateFederated;
    hide HandleJoin, HandleLeave, HandleCleanup, HandleGc, HandleRepair, OnAdds, ObjectSound, Desired;
    hide IsFederatedMember, FederatedKey, M.ValidName;
    match ev
    case OnAdd(_, _) => DecisionSpawnsSound(cfg, env, st, ev, k, last);
    case OnUpdate(_, _) => DecisionSpawnsSound(cfg, env, st, ev, k, last);
    case NamespaceAdded(ns) => OnAddsSound(cfg, remote, st, env.list(RemoteIn(remote, ns)), k);
    case Updated(_, _, _, _) => UpdateSpawnsNothing(cfg, remote, env, st, ev);
    case JoinFederated(_, _, _) => JoinSpawnsNothing(cfg, env, st, ev);
    case _ =>
  }

  lemma UpdateSpawnsNothing(cfg: Config, remote: Remote, env: Env, st: State, ev: Event)
    requires ev.Updated?
    ensures HandleUpdated(cfg, remote, env, st, ev).spawned == []
  {
    hide UpdateMode, UpdatedLocal, UpdateService, PutMirrorStatus, Mirrored, Failure, MirrorKey;
  }

  lemma JoinSpawnsNothing(cfg: Config, env: Env, st: State, ev: Event)
    requires ev.JoinFederated?
    ensures HandleJoin(cfg, env, st, ev).spawned == []
  {
    hide JoinedAnnotations, UpdateService, PutFederatedStatus, Mirrored, Failure, FederatedKey, Headless;
  }

  /* ---------- one store, many watchers ---------- */

  datatype Node = Node(cfg: Config, sys: System)

  /** `shared` holds the store and its clock. Each watcher has its own queue, its own view of its cluster, its
      own status lists and its own opinion of its gateway. */
  datatype Fleet = Fleet(shared: State, nodes: seq<Node>)

  datatype Turn = Turn(node: nat, move: Move)

  function Current(shared: State, sys: System): System {
    sys.(st := shared.(mirrorStatus := sys.st.mirrorStatus, federatedStatus := sys.st.federatedStatus,
                       gatewayAlive := sys.st.gatewayAlive))
  }

  predicate Enabled(f: Fleet, turn: Turn) {
    turn.node < |f.nodes| && (turn.move.Process? ==> turn.move.index < |f.nodes[turn.node].sys.queue|)
  }

  function Take(f: Fleet, turn: Turn): Fleet
    requires Enabled(f, turn)
  {
    var node := f.nodes[turn.node];
    var sys := Next(node.cfg, Current(f.shared, node.sys), turn.move);
    Fleet(sys.st, f.nodes[turn.node := Node(node.cfg, sys)])
  }

  /** Informers deliver what they may, and the remote service k carries no discovery annotation of its own. */
  predicate Allowed(f: Fleet, k: Key, turn: Turn) {
    && Enabled(f, turn)
    && (turn.move.Informer? ==>
          FromOutside(turn.move.event) && CleanRemote(k, turn.move.remote)
          && EventSound(f.shared, "", k, turn.move.event))
  }

  /** The write of a turn to the federated service of k. */
  function Committed(f: Fleet, k: Key, turn: Turn): M.Commit
    requires Enabled(f, turn)
  {
    var node := f.nodes[turn.node];
    if !turn.move.Process? then M.Nothing
    else Wrote(f.shared, Take(f, turn).shared, k, node.cfg.link.cluster, node.sys.queue[turn.move.index].event)
  }

  ghost predicate AllowedRun(f: Fleet, k: Key, turns: seq<Turn>)
    decreases |turns|
  {
    turns == [] || (Allowed(f, k, turns[0]) && AllowedRun(Take(f, turns[0]), k, turns[1..]))
  }

  /** Where a run ends, and the clusters whose last write to the federated service of k was a create or a join. */
  ghost function Ending(f: Fleet, k: Key, last: set<string>, turns: seq<Turn>): (Fleet, set<string>)
    requires AllowedRun(f, k, turns)
    decreases |turns|
  {
    if turns == [] then (f, last)
    else Ending(Take(f, turns[0]), k, M.Record(last, Committed(f, k, turns[0])), turns[1..])
  }

  ghost predicate NodeSound(shared: State, k: Key, node: Node) {
    var cluster := node.cfg.link.cluster;
    && !FederatedLike(cluster) && ',' !in cluster && CleanRemote(k, node.sys.remote)
    && forall i :: 0 <= i < |node.sys.queue| ==> EventSound(shared, cluster, k, node.sys.queue[i].event)
  }

  ghost predicate Sound(f: Fleet, k: Key, last: set<string>) {
    ObjectSound(f.shared, k, last) && forall w :: 0 <= w < |f.nodes| ==> NodeSound(f.shared, k, f.nodes[w])
  }

  /** Soundness looks at the federated service of k and at the clock alone. */
  lemma SoundnessIsLocal(a: State, b: State, k: Key)
    requires a.services == b.services && a.now == b.now
    ensures Project(a, k, []) == Project(b, k, [])
    ensures forall last :: ObjectSound(a, k, last) <==> ObjectSound(b, k, last)
    ensures forall cluster, ev :: EventSound(a, cluster, k, ev) <==> EventSound(b, cluster, k, ev)
  {
    hide FederatedKey, M.Invariant, M.Genuine;
  }

  lemma QueuedEventStaysSound(cfg: Config, remote: Remote, env: Env, st: State, ev: Event, k: Key, last: set<string>,
                              cluster: string, e: Event)
    requires M.ValidName(k.name) && ',' !in cfg.link.cluster && !FederatedLike(cfg.link.cluster)
    requires ObjectSound(st, k, last) && EventSound(st, cfg.link.cluster, k, ev) && EventSound(st, cluster, k, e)
    ensures EventSound(Later(Handle(cfg, remote, env, st, ev).st), cluster, k, e)
  {
    hide Handle, ObjectSound, M.Genuine, FederatedLike, M.ValidName, Wrote;
    if e.JoinFederated? {
      EventHandled(cfg, remote, env, st, ev, k, last, M.PendingJoin(cluster, e.local));
    }
  }

  /** The queue of the watcher that handled an event. */
  lemma NewQueueSound(cfg: Config, sys: System, i: nat, env: Env, k: Key, last: set<string>)
    requires i < |sys.queue| && M.ValidName(k.name) && ObjectSound(sys.st, k, last)
    requires NodeSound(sys.st, k, Node(cfg, sys))
    ensures var next := Step(cfg, sys, i, env); NodeSound(next.st, k, Node(cfg, next))
    ensures Step(cfg, sys, i, env).st == Later(Handle(cfg, sys.remote, env, sys.st, sys.queue[i].event).st)
  {
    hide Handle, ObjectSound, EventSound, FederatedLike, M.ValidName, Keeps, CleanRemote;
    var item := sys.queue[i];
    var out := Handle(cfg, sys.remote, env, sys.st, item.event);
    var next := Step(cfg, sys, i, env);
    var cluster := cfg.link.cluster;
    EventHandled(cfg, sys.remote, env, sys.st, item.event, k, last,
                 M.PendingJoin("", Service(map[], map[], [], "", 0)));
    SpawnsSound(cfg, sys.remote, env, sys.st, item.event, k, last);
    forall j | 0 <= j < |next.queue| ensures EventSound(next.st, cluster, k, next.queue[j].event) {
      var e := next.queue[j].event;
      if j < |sys.queue| - 1 {
        assert e == sys.queue[if j < i then j else j + 1].event;
        QueuedEventStaysSound(cfg, sys.remote, env, sys.st, item.event, k, last, cluster, e);
      } else if j < |sys.queue| - 1 + |out.spawned| {
        assert e == out.spawned[j - (|sys.queue| - 1)];
        QueuedEventStaysSound(cfg, sys.remote, env, sys.st, item.event, k, last, cluster, e);
      }
    }
  }

  lemma HandlingKeepsSound(f: Fleet, k: Key, last: set<string>, turn: Turn)
    requires M.ValidName(k.name) && Sound(f, k, last) && Enabled(f, turn) && turn.move.Process?
    ensures Sound(Take(f, turn), k, M.Record(last, Committed(f, k, turn)))
  {
    hide Handle, Step, ObjectSound, EventSound, FederatedLike, M.ValidName, CleanRemote, M.Record, Wrote, M.Genuine;
    var node := f.nodes[turn.node];
    var sys := Current(f.shared, node.sys);
    var cfg, ev, env := node.cfg, sys.queue[turn.move.index].event, turn.move.env;
    var after := Take(f, turn);
    SoundnessIsLocal(f.shared, sys.st, k);
    assert NodeSound(f.shared, k, node);
    NewQueueSound(cfg, sys, turn.move.index, env, k, last);
    EventHandled(cfg, sys.remote, env, sys.st, ev, k, last, M.PendingJoin("", Service(map[], map[], [], "", 0)));
    WroteIsLocal(f.shared, sys.st, after.shared, k, cfg.link.cluster, ev);
    forall w | 0 <= w < |f.nodes| && w != turn.node ensures NodeSound(after.shared, k, f.nodes[w]) {
      var other := f.nodes[w];
      assert NodeSound(f.shared, k, other);
      forall i | 0 <= i < |other.sys.queue|
        ensures EventSound(after.shared, other.cfg.link.cluster, k, other.sys.queue[i].event)
      {
        QueuedEventStaysSound(cfg, sys.remote, env, sys.st, ev, k, last, other.cfg.link.cluster,
                              other.sys.queue[i].event);
      }
    }
  }

  lemma WroteIsLocal(a: State, b: State, after: State, k: Key, cluster: string, ev: Event)
    requires a.services == b.services
    ensures Wrote(a, after, k, cluster, ev) == Wrote(b, after, k, cluster, ev)
  {
    hide FederatedKey;
  }

  lemma TurnKeepsSound(f: Fleet, k: Key, last: set<string>, turn: Turn)
    requires M.ValidName(k.name) && Sound(f, k, last) && Allowed(f, k, turn)
    ensures Sound(Take(f, turn), k, M.Record(last, Committed(f, k, turn)))
  {
    hide Step, ObjectSound, FederatedLike, M.ValidName, CleanRemote, Wrote, M.Genuine;
    if turn.move.Process? {
      HandlingKeepsSound(f, k, last, turn);
    } else {
      var after := Take(f, turn);
      SoundnessIsLocal(f.shared, after.shared, k);
      var node, node' := f.nodes[turn.node], after.nodes[turn.node];
      assert NodeSound(f.shared, k, node);
      var n := |node.sys.queue|;
      assert forall i :: 0 <= i < n ==> node'.sys.queue[i] == node.sys.queue[i];
      assert node'.sys.queue == node.sys.queue + [node'.sys.queue[n]];
      assert NodeSound(after.shared, k, node');
      forall w | 0 <= w < |f.nodes| && w != turn.node ensures NodeSound(after.shared, k, after.nodes[w]) {
        assert NodeSound(f.shared, k, f.nodes[w]);
      }
    }
  }

  lemma {:induction false} RunKeepsSound(f: Fleet, k: Key, last: set<string>, turns: seq<Turn>)
    requires M.ValidName(k.name) && Sound(f, k, last) && AllowedRun(f, k, turns)
    ensures var (f', last') := Ending(f, k, last, turns); Sound(f', k, last')
    decreases |turns|
  {
    hide Sound, Take, Committed, M.ValidName, M.Record;
    if turns != [] {
      TurnKeepsSound(f, k, last, turns[0]);
      RunKeepsSound(Take(f, turns[0]), k, M.Record(last, Committed(f, k, turns[0])), turns[1..]);
    }
  }

  /** Nothing is queued yet and there is no federated service of k. */
  predicate Starting(f: Fleet, k: Key) {
    && FederatedKey(k) !in f.shared.services
    && forall w :: 0 <= w < |f.nodes| ==>
         && f.nodes[w].sys.queue == [] && CleanRemote(k, f.nodes[w].sys.remote)
         && !FederatedLike(f.nodes[w].cfg.link.cluster) && ',' !in f.nodes[w].cfg.link.cluster
  }

  /** The membership protocol of the watchers themselves. In every run of any number of them over one store, with
      every kind of event handled in any order and any calls failing: the federated service of k lists no member
      twice, its members are exactly the clusters whose last write of it was a create or a join, and it exists
      exactly while there is one. */
  lemma FleetMembership(f: Fleet, k: Key, turns: seq<Turn>)
    requires M.ValidName(k.name) && Starting(f, k) && AllowedRun(f, k, turns)
    ensures var (f', last) := Ending(f, k, {}, turns); var svc := Project(f'.shared, k, []).svc;
            && M.NoDuplicates(M.Listed(svc))
            && (forall c :: M.Member(k.name, svc, c) <==> c in last)
            && (svc.Some? <==> last != {})
  {
    hide AllowedRun, Ending, M.ValidName, M.Listed, M.Member, M.NoDuplicates, FederatedKey, FederatedLike, CleanRemote;
    StartIsSound(f, k);
    RunKeepsSound(f, k, {}, turns);
    var (f', last) := Ending(f, k, {}, turns);
    M.InvariantMeans(k.name, Project(f'.shared, k, []), last);
  }

  /** While nothing but the watchers writes the federated service of k, no join of it is ever handled with a copy
      that has no annotations, so none of them is lost to a nil map. */
  lemma FleetJoinsEnd(f: Fleet, k: Key, turns: seq<Turn>, w: nat, i: nat, env: Env)
    requires M.ValidName(k.name) && Starting(f, k) && AllowedRun(f, k, turns)
    ensures var f' := Ending(f, k, {}, turns).0;
            w < |f'.nodes| && i < |f'.nodes[w].sys.queue| ==>
              var node := f'.nodes[w]; var ev := node.sys.queue[i].event;
              ev.JoinFederated? && ev.key == k ==>
                Handle(node.cfg, node.sys.remote, env, Current(f'.shared, node.sys).st, ev).outcome != Crash
  {
    hide AllowedRun, Ending, M.ValidName, FederatedKey, FederatedLike, CleanRemote, Handle, ObjectSound;
    assert Sound(f, k, {}) by { StartIsSound(f, k); }
    RunKeepsSound(f, k, {}, turns);
    var f' := Ending(f, k, {}, turns).0;
    if w < |f'.nodes| && i < |f'.nodes[w].sys.queue| {
      var node := f'.nodes[w];
      var ev := node.sys.queue[i].event;
      assert NodeSound(f'.shared, k, node) && EventSound(f'.shared, node.cfg.link.cluster, k, ev);
      if ev.JoinFederated? && ev.key == k {
        AnnotatedJoinEnds(node.cfg, node.sys.remote, env, Current(f'.shared, node.sys).st, ev);
      }
    }
  }

  lemma AnnotatedJoinEnds(cfg: Config, remote: Remote, env: Env, st: State, ev: Event)
    requires ev.JoinFederated? && ev.local.annotations != map[]
    ensures Handle(cfg, remote, env, st, ev).outcome != Crash
  {
    hide JoinedAnnotations, UpdateService, PutFederatedStatus, Mirrored, Failure, FederatedKey, Headless;
  }

  lemma StartIsSound(f: Fleet, k: Key)
    requires Starting(f, k)
    ensures Sound(f, k, {})
  {
    hide FederatedKey, FederatedLike, CleanRemote;
    M.EmptyInvariant(k.name, f.shared.now);
  }
}
