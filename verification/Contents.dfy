/** What the watcher writes: the contents of the endpoints, services and status entries that its handlers leave, and how
    each handler ends, told from the calls that fail and the store alone. */
module Contents {
  import opened Strings
  import opened Kubernetes
  import opened Mirror
  import opened StatusList
  import opened Federation
  import opened Api
  import opened HeadlessMirror
  import opened Handlers
  import FederatedHandlers

  type State = Api.State

  /* ---------- gateway endpoints ---------- */

  /** One subset: the gateway's addresses, ready exactly while it lives, and every port sent to the gateway's. */
  ghost predicate PointsAtGateway(cfg: Config, env: Env, alive: bool, ports: seq<ServicePort>, subsets: seq<Subset>) {
    && |subsets| == 1
    && (exists number :: HasGatewayPort(cfg.link, number) && SentTo(number, ports, subsets[0].ports))
    && (if alive then Resolution(cfg.link, env.lookup, subsets[0].addresses) && subsets[0].notReady == []
        else Resolution(cfg.link, env.lookup, subsets[0].notReady) && subsets[0].addresses == [])
  }

  lemma SubsetsPointAtGateway(cfg: Config, env: Env, st: State, ports: seq<ServicePort>)
    requires ResolveGateway(cfg.link, env.lookup).Some? && EndpointPorts(cfg.link, ports).Some?
    ensures var subsets := GatewaySubsets(ResolveGateway(cfg.link, env.lookup).value,
                                          EndpointPorts(cfg.link, ports).value);
            PointsAtGateway(cfg, env, st.gatewayAlive, ports, Readiness(st.gatewayAlive, subsets))
  {
    hide ResolveGateway, EndpointPorts, HasGatewayPort, SentTo, Resolution;
    ResolveGatewayIsExact(cfg.link, env.lookup);
    EndpointPortsAreExact(cfg.link, ports);
    var addresses := ResolveGateway(cfg.link, env.lookup).value;
    var number :| HasGatewayPort(cfg.link, number);
    assert SentTo(number, ports, EndpointPorts(cfg.link, ports).value);
    assert [] + addresses == addresses;
  }

  /** The annotations of mirror endpoints: the remote name they stand for, and the gateway's identity if it has one. */
  ghost predicate Annotated(link: Link, fqName: string, annotations: Labels) {
    && Lookup(annotations, REMOTE_FQ_NAME) == Some(fqName)
    && (if link.gatewayIdentity == "" then GATEWAY_IDENTITY !in annotations
        else Lookup(annotations, GATEWAY_IDENTITY) == Some(link.gatewayIdentity))
    && forall key :: key in annotations ==> key == REMOTE_FQ_NAME || key == GATEWAY_IDENTITY
  }

  lemma GatewayAnnotated(link: Link, fqName: string)
    ensures Annotated(link, fqName, GatewayAnnotations(link, fqName))
  {
    assert REMOTE_FQ_NAME[25] == 's' && GATEWAY_IDENTITY[25] == 'g';
  }

  /** The endpoints that createGatewayEndpoints creates: without subsets if the remote service has no ready address,
      otherwise pointing at the gateway. */
  ghost predicate GatewayEndpoints(cfg: Config, remote: Remote, env: Env, alive: bool, k: Key, svc: Service,
                                   ep: Endpoints) {
    && ep.labels == EndpointLabels(cfg.link, svc.labels)
    && Annotated(cfg.link, k.name + "." + k.ns + ".svc." + cfg.link.domain, ep.annotations)
    && (if Served(remote, k) then PointsAtGateway(cfg, env, alive, svc.ports, ep.subsets) else ep.subsets == [])
  }

  /** Whether gateway endpoints can be created, how that ends, and what is then there. */
  lemma GatewayEndpointsWritten(cfg: Config, remote: Remote, env: Env, st: State, k: Key, svc: Service)
    ensures var (post, outcome) := CreateGatewayEndpoints(cfg, remote, env, st, k, svc);
            var mk := MirrorKey(cfg.link, k);
            && (outcome == Done ==>
                  && mk in post.endpoints && mk !in st.endpoints && post == st.(endpoints := post.endpoints)
                  && (forall n :: n != mk && n in post.endpoints ==> n in st.endpoints)
                  && GatewayEndpoints(cfg, remote, env, st.gatewayAlive, k, svc, post.endpoints[mk]))
            && (outcome == Fail <==>
                  && env.ok(RemoteGetEndpoints(k)) && Answers(cfg, env)
                  && forall number :: !HasGatewayPort(cfg.link, number))
            && (outcome == Done <==>
                  && env.ok(RemoteGetEndpoints(k)) && Answers(cfg, env)
                  && (exists number :: HasGatewayPort(cfg.link, number))
                  && env.ok(CreateEndpointsCall(mk)) && k.ns in st.namespaces && mk !in st.endpoints)
            && outcome != Crash
  {
    hide ResolveGateway, EndpointPorts, MirrorKey, HasGatewayPort, SentTo, Resolution, EndpointLabels, Readiness;
    hide Served, RemoteIsEmpty, Annotated, GatewayAnnotations, PointsAtGateway;
    ResolveGatewayIsExact(cfg.link, env.lookup);
    EndpointPortsAreExact(cfg.link, svc.ports);
    EmptyIsNotServed(remote, k);
    GatewayAnnotated(cfg.link, FqName(cfg.link, k));
    assert MirrorKey(cfg.link, k).ns == k.ns by { SameNamespace(cfg, k); }
    if ResolveGateway(cfg.link, env.lookup).Some? && EndpointPorts(cfg.link, svc.ports).Some? {
      SubsetsPointAtGateway(cfg, env, st, svc.ports);
      NoSubsets(st.gatewayAlive);
    }
  }

  /** DNS has an address for some host of the gateway. */
  predicate Answers(cfg: Config, env: Env) {
    Answered(Split(cfg.link.gatewayAddress, ','), env.lookup) != multiset{}
  }

  lemma NoSubsets(alive: bool)
    ensures Readiness(alive, []) == []
  {
  }

  /* ---------- namespaces ---------- */

  /** The namespace is there or can be created. */
  predicate HasNamespace(cfg: Config, env: Env, st: State, ns: string) {
    env.ok(GetNamespace(ns)) && (ns in st.namespaces || (cfg.namespaceCreation && env.ok(CreateNamespace(ns))))
  }

  /** The namespace is known to be missing, and not to be created. */
  predicate LacksNamespace(cfg: Config, env: Env, st: State, ns: string) {
    env.ok(GetNamespace(ns)) && ns !in st.namespaces && !cfg.namespaceCreation
  }

  lemma NamespaceIsEnsured(cfg: Config, env: Env, st: State, ns: string)
    ensures var (post, answer) := EnsureNamespace(cfg, env, st, ns);
            && (answer == Present <==> HasNamespace(cfg, env, st, ns))
            && (answer == Absent <==> LacksNamespace(cfg, env, st, ns))
            && post == st.(namespaces := if HasNamespace(cfg, env, st, ns) then st.namespaces + {ns} else st.namespaces)
  {
    if ns in st.namespaces { assert st.namespaces + {ns} == st.namespaces; }
  }

  /* ---------- exports ---------- */

  /** Exports of headless services are left to their endpoints. */
  predicate Stopped(cfg: Config, svc: Service) {
    cfg.headlessEnabled && Headless(svc)
  }

  /** The mirror of svc, as it is created. */
  ghost predicate MirrorService(cfg: Config, env: Env, st: State, k: Key, svc: Service, mirror: Service) {
    && mirror.labels == MirrorLabels(cfg.link, k, svc.labels)
    && mirror.annotations == MirrorAnnotations(cfg.link, k, svc)
    && mirror.ports == RemapPorts(svc.ports)
    && mirror.clusterIP == env.assignIP(MirrorKey(cfg.link, k)) && mirror.version == st.now
  }

  /** What an export that comes through leaves: the mirror service, new or as it was, and in gateway mode its new
      endpoints; nothing else. */
  lemma ExportWritten(cfg: Config, remote: Remote, env: Env, st: State, k: Key, svc: Service)
    requires !Stopped(cfg, svc) && HasNamespace(cfg, env, st, k.ns)
    requires HandleExported(cfg, remote, env, st, k, svc).1 == Done
    ensures var post := HandleExported(cfg, remote, env, st, k, svc).0; var mk := MirrorKey(cfg.link, k);
            && mk in post.services
            && (if mk in st.services then post.services == st.services
                else MirrorService(cfg, env, st, k, svc, post.services[mk])
                     && post.services == st.services[mk := post.services[mk]])
            && (if IsRemoteDiscovery(cfg.link, svc.labels) then post.endpoints == st.endpoints
                else && mk !in st.endpoints && mk in post.endpoints
                     && (forall n :: n != mk && n in post.endpoints ==> n in st.endpoints)
                     && GatewayEndpoints(cfg, remote, env, st.gatewayAlive, k, svc, post.endpoints[mk]))
            && post.namespaces == st.namespaces + {k.ns}
  {
    hide MirrorKey, MirrorLabels, MirrorAnnotations, RemapPorts, IsRemoteDiscovery, CreateGatewayEndpoints, Update;
    hide EnsureNamespace, HasNamespace, LacksNamespace, GatewayEndpoints, Answers, HasGatewayPort, Mirrored, Failure;
    NamespaceIsEnsured(cfg, env, st, k.ns);
    assert |""| != |CLUSTER_IP_NONE|;
    var st1 := EnsureNamespace(cfg, env, st, k.ns).0;
    var st2 := CreateService(env, st1, MirrorKey(cfg.link, k), NewMirror(cfg, k, svc, "")).0;
    GatewayEndpointsWritten(cfg, remote, env, st2, k, svc);
  }

  /** The Link's entry for k reads so. */
  predicate Reads(cfg: Config, list: seq<Status>, k: Key, mirrored: bool, reason: string, local: Option<Key>) {
    cfg.link.cluster != "" ==>
      && k in AsMap(list) && AsMap(list)[k].mirrored == mirrored && AsMap(list)[k].reason == reason
      && AsMap(list)[k].localRef == local
  }

  lemma PutReads(cfg: Config, st: State, k: Key, c: Condition)
    ensures Reads(cfg, PutMirrorStatus(cfg, st, k, c).mirrorStatus, k, c.mirrored, c.reason, c.localRef)
    ensures Reads(cfg, PutFederatedStatus(cfg, st, k, c).federatedStatus, k, c.mirrored, c.reason, c.localRef)
  {
    hide Update, AsMap;
    UpdateRefines(st.mirrorStatus, k, c);
    UpdateRefines(st.federatedStatus, k, c);
  }

  /** How an export ends and what it reports: exactly when it is stopped, lacks a namespace, has to be tried again, or
      cannot succeed at all. */
  lemma ExportOutcomes(cfg: Config, remote: Remote, env: Env, st: State, k: Key, svc: Service)
    ensures var (post, outcome) := HandleExported(cfg, remote, env, st, k, svc); var mk := MirrorKey(cfg.link, k);
            var goes := !Stopped(cfg, svc) && HasNamespace(cfg, env, st, k.ns) && env.ok(CreateServiceCall(mk));
            var gateway := goes && !IsRemoteDiscovery(cfg.link, svc.labels);
            && (outcome == Fail <==>
                  && gateway && env.ok(RemoteGetEndpoints(k)) && Answers(cfg, env)
                  && forall number :: !HasGatewayPort(cfg.link, number))
            && (outcome == Done <==>
                  || Stopped(cfg, svc) || LacksNamespace(cfg, env, st, k.ns) || (goes && !gateway)
                  || (&& gateway && env.ok(RemoteGetEndpoints(k)) && Answers(cfg, env)
                      && (exists number :: HasGatewayPort(cfg.link, number))
                      && env.ok(CreateEndpointsCall(mk)) && mk !in st.endpoints))
            && outcome != Crash
            && (if Stopped(cfg, svc) then Reads(cfg, post.mirrorStatus, k, false, "InvalidService", None)
                else if LacksNamespace(cfg, env, st, k.ns) then
                  Reads(cfg, post.mirrorStatus, k, false, "MissingNamespace", None)
                else if outcome == Done then Reads(cfg, post.mirrorStatus, k, true, "Mirrored", Some(mk))
                else Reads(cfg, post.mirrorStatus, k, false, "Error", None))
  {
    hide MirrorKey, IsRemoteDiscovery, CreateGatewayEndpoints, PutMirrorStatus, Headless, NewMirror, Stamp;
    hide EnsureNamespace, HasNamespace, LacksNamespace, GatewayEndpoints, Answers, HasGatewayPort, Reads;
    NamespaceIsEnsured(cfg, env, st, k.ns);
    var mk := MirrorKey(cfg.link, k);
    assert mk.ns == k.ns by { SameNamespace(cfg, k); }
    var st1 := EnsureNamespace(cfg, env, st, k.ns).0;
    var st2 := CreateService(env, st1, mk, NewMirror(cfg, k, svc, "")).0;
    GatewayEndpointsWritten(cfg, remote, env, st2, k, svc);
    var st3 := CreateGatewayEndpoints(cfg, remote, env, st2, k, svc).0;
    PutReads(cfg, st, k, Failure("InvalidService"));
    PutReads(cfg, st1, k, Failure("Error"));
    PutReads(cfg, st1, k, Failure("MissingNamespace"));
    PutReads(cfg, st2, k, Failure("Error"));
    PutReads(cfg, st2, k, Mirrored(mk));
    PutReads(cfg, st3, k, Mirrored(mk));
    PutReads(cfg, st3, k, Failure("Error"));
  }

  /* ---------- updates ---------- */

  /** What an update that comes through leaves in gateway mode: new endpoints as an export would create them, or the
      copied ones pointing at the gateway again, whatever addresses the remote service has. In discovery mode there
      are no endpoints left of those it was queued with. */
  lemma UpdateWritten(cfg: Config, remote: Remote, env: Env, st: State, ev: Event)
    requires ev.Updated? && HandleUpdated(cfg, remote, env, st, ev).outcome == Done
    ensures var post := HandleUpdated(cfg, remote, env, st, ev).st; var mk := MirrorKey(cfg.link, ev.key);
            && mk in post.services && post.services[mk].labels == MirrorLabels(cfg.link, ev.key, ev.svc.labels)
            && post.services[mk].annotations == MirrorAnnotations(cfg.link, ev.key, ev.svc)
            && post.services[mk].ports == RemapPorts(ev.svc.ports)
            && post.services[mk].clusterIP == ev.local.clusterIP && post.services[mk].version == st.now
            && (if IsRemoteDiscovery(cfg.link, ev.svc.labels) then ev.localEndpoints.Some? ==> mk !in post.endpoints
                else
                  && mk in post.endpoints
                  && match ev.localEndpoints
                     case None =>
                       GatewayEndpoints(cfg, remote, env, st.gatewayAlive, ev.key, ev.svc, post.endpoints[mk])
                     case Some(copy) =>
                       && PointsAtGateway(cfg, env, st.gatewayAlive, ev.svc.ports, post.endpoints[mk].subsets)
                       && post.endpoints[mk].labels == copy.labels
                       && forall key :: Lookup(post.endpoints[mk].annotations, key) ==
                            if key == GATEWAY_IDENTITY then Some(cfg.link.gatewayIdentity)
                            else Lookup(copy.annotations, key))
            && Reads(cfg, post.mirrorStatus, ev.key, true, "Mirrored", Some(mk))
  {
    hide UpdateMode, MirrorKey, PutMirrorStatus, Failure, MirrorLabels, MirrorAnnotations, RemapPorts;
    hide IsRemoteDiscovery, GatewayEndpoints, PointsAtGateway, Reads;
    UpdateModeWritten(cfg, remote, env, st, ev);
    var st1 := UpdateMode(cfg, remote, env, st, ev).0;
    var mk := MirrorKey(cfg.link, ev.key);
    var st2 := UpdateService(env, st1, mk, UpdatedLocal(cfg, ev)).0;
    PutReads(cfg, st2, ev.key, Mirrored(mk));
    StatusOnly(cfg, st2, ev.key, Mirrored(mk));
  }

  lemma StatusOnly(cfg: Config, st: State, k: Key, c: Condition)
    ensures PutMirrorStatus(cfg, st, k, c) == st.(mirrorStatus := PutMirrorStatus(cfg, st, k, c).mirrorStatus)
  {
    hide Update;
  }

  lemma UpdateModeWritten(cfg: Config, remote: Remote, env: Env, st: State, ev: Event)
    requires ev.Updated? && UpdateMode(cfg, remote, env, st, ev).1 == Done
    ensures var post := UpdateMode(cfg, remote, env, st, ev).0; var mk := MirrorKey(cfg.link, ev.key);
            && post.gatewayAlive == st.gatewayAlive && post.now == st.now
            && (if IsRemoteDiscovery(cfg.link, ev.svc.labels) then ev.localEndpoints.Some? ==> mk !in post.endpoints
                else
                  && mk in post.endpoints
                  && match ev.localEndpoints
                     case None =>
                       GatewayEndpoints(cfg, remote, env, st.gatewayAlive, ev.key, ev.svc, post.endpoints[mk])
                     case Some(copy) =>
                       && PointsAtGateway(cfg, env, st.gatewayAlive, ev.svc.ports, post.endpoints[mk].subsets)
                       && post.endpoints[mk].labels == copy.labels
                       && forall key :: Lookup(post.endpoints[mk].annotations, key) ==
                            if key == GATEWAY_IDENTITY then Some(cfg.link.gatewayIdentity)
                            else Lookup(copy.annotations, key))
  {
    hide CreateGatewayEndpoints, ResolveGateway, EndpointPorts, Readiness, GatewaySubsets, MirrorKey, IsRemoteDiscovery;
    hide GatewayEndpoints, PointsAtGateway, PutMirrorStatus, Failure;
    GatewayEndpointsWritten(cfg, remote, env, st, ev.key, ev.svc);
    if ResolveGateway(cfg.link, env.lookup).Some? && EndpointPorts(cfg.link, ev.svc.ports).Some? {
      SubsetsPointAtGateway(cfg, env, st, ev.svc.ports);
    }
  }

  /** An update that is to be tried again has reported an error; one that is not had no gateway port. */
  lemma UpdateFailureReported(cfg: Config, remote: Remote, env: Env, st: State, ev: Event)
    requires ev.Updated? && HandleUpdated(cfg, remote, env, st, ev).outcome != Done
    ensures var out := HandleUpdated(cfg, remote, env, st, ev);
            && (out.outcome == Retry ==> Reads(cfg, out.st.mirrorStatus, ev.key, false, "Error", None))
            && (out.outcome == Fail ==> forall number :: !HasGatewayPort(cfg.link, number))
            && out.outcome != Crash && out.spawned == []
  {
    hide UpdateMode, MirrorKey, PutMirrorStatus, UpdatedLocal, Reads, HasGatewayPort, Failure, Mirrored;
    UpdateModeFailureReported(cfg, remote, env, st, ev);
    var st1 := UpdateMode(cfg, remote, env, st, ev).0;
    var st2 := UpdateService(env, st1, MirrorKey(cfg.link, ev.key), UpdatedLocal(cfg, ev)).0;
    FailureReads(cfg, st2, ev.key);
  }

  lemma FailureReads(cfg: Config, st: State, k: Key)
    ensures Reads(cfg, PutMirrorStatus(cfg, st, k, Failure(REASON_ERROR)).mirrorStatus, k, false, "Error", None)
    ensures Reads(cfg, PutFederatedStatus(cfg, st, k, Failure(REASON_ERROR)).federatedStatus, k, false, "Error", None)
  {
    hide Update, AsMap, Reads;
    PutReads(cfg, st, k, Failure(REASON_ERROR));
  }

  lemma UpdateModeFailureReported(cfg: Config, remote: Remote, env: Env, st: State, ev: Event)
    requires ev.Updated?
    ensures var (post, outcome) := UpdateMode(cfg, remote, env, st, ev);
            && (outcome == Retry ==> Reads(cfg, post.mirrorStatus, ev.key, false, "Error", None))
            && (outcome == Fail ==> forall number :: !HasGatewayPort(cfg.link, number))
            && outcome != Crash
  {
    hide CreateGatewayEndpoints, ResolveGateway, EndpointPorts, ByLiveness, GatewaySubsets, MirrorKey;
    hide IsRemoteDiscovery, PutMirrorStatus, GatewayEndpoints, Reads, HasGatewayPort, Answers, Failure;
    GatewayEndpointsWritten(cfg, remote, env, st, ev.key, ev.svc);
    EndpointPortsAreExact(cfg.link, ev.svc.ports);
    var mk := MirrorKey(cfg.link, ev.key);
    FailureReads(cfg, st, ev.key);
    FailureReads(cfg, DeleteEndpoints(env, st, mk).0, ev.key);
    FailureReads(cfg, CreateGatewayEndpoints(cfg, remote, env, st, ev.key, ev.svc).0, ev.key);
    if ev.localEndpoints.Some? {
      forall ep ensures Reads(cfg, PutMirrorStatus(cfg, UpdateEndpoints(env, st, mk, ep).0, ev.key,
                                                   Failure(REASON_ERROR)).mirrorStatus, ev.key, false, "Error", None) {
        FailureReads(cfg, UpdateEndpoints(env, st, mk, ep).0, ev.key);
      }
    }
  }

  /** The endpoints part of an update comes through. */
  predicate ModeGoes(cfg: Config, env: Env, st: State, ev: Event, ported: bool)
    requires ev.Updated?
  {
    var mk := MirrorKey(cfg.link, ev.key);
    match ev.localEndpoints
    case None =>
      || IsRemoteDiscovery(cfg.link, ev.svc.labels)
      || (env.ok(RemoteGetEndpoints(ev.key)) && Answers(cfg, env) && ported && env.ok(CreateEndpointsCall(mk))
          && ev.key.ns in st.namespaces && mk !in st.endpoints)
    case Some(copy) =>
      && mk in st.endpoints
      && if IsRemoteDiscovery(cfg.link, ev.svc.labels) then env.ok(DeleteEndpointsCall(mk))
         else Answers(cfg, env) && ported && env.ok(UpdateEndpointsCall(mk)) && st.endpoints[mk].version == copy.version
  }

  /** An update is done exactly when its endpoints come through and the mirror is still the copied one; it fails for
      good exactly when it needs a gateway port that is none. */
  lemma UpdateOutcomes(cfg: Config, remote: Remote, env: Env, st: State, ev: Event)
    requires ev.Updated?
    ensures var outcome := HandleUpdated(cfg, remote, env, st, ev).outcome; var mk := MirrorKey(cfg.link, ev.key);
            var ported := exists number :: HasGatewayPort(cfg.link, number);
            && (outcome == Done <==>
                  && ModeGoes(cfg, env, st, ev, ported) && env.ok(UpdateServiceCall(mk))
                  && mk in st.services && st.services[mk].version == ev.local.version)
            && (outcome == Fail <==>
                  && !IsRemoteDiscovery(cfg.link, ev.svc.labels) && !ported && Answers(cfg, env)
                  && (ev.localEndpoints.None? ==> env.ok(RemoteGetEndpoints(ev.key))))
  {
    hide CreateGatewayEndpoints, ResolveGateway, EndpointPorts, Readiness, GatewaySubsets, MirrorKey;
    hide IsRemoteDiscovery, PutMirrorStatus, GatewayEndpoints, HasGatewayPort, Answered, Failure, Mirrored, Split;
    hide MirrorLabels, MirrorAnnotations, RemapPorts;
    GatewayEndpointsWritten(cfg, remote, env, st, ev.key, ev.svc);
    EndpointPortsAreExact(cfg.link, ev.svc.ports);
    ResolveGatewayIsExact(cfg.link, env.lookup);
    assert MirrorKey(cfg.link, ev.key).ns == ev.key.ns by { SameNamespace(cfg, ev.key); }
    StatusOnly(cfg, st, ev.key, Failure(REASON_ERROR));
  }

  /* ---------- unexports ---------- */

  /** The service n is the mirror of k, or, where that is headless, labelled as one of its endpoint mirrors, in whatever
      namespace. */
  predicate BelongsTo(cfg: Config, st: State, k: Key, n: Key) {
    var mk := MirrorKey(cfg.link, k);
    && mk in st.services && n in st.services
    && (|| n == mk
        || (st.services[mk].clusterIP == "None" && Lookup(st.services[n].labels, HEADLESS_NAME) == Some(mk.name)))
  }

  /** The calls that delete n go through: endpoint mirrors have to be listed first. */
  predicate Deletable(cfg: Config, env: Env, k: Key, n: Key) {
    env.ok(DeleteServiceCall(n)) && (n != MirrorKey(cfg.link, k) ==> env.ok(ListServices))
  }

  /** An unexport deletes the mirror and, if it is headless, its endpoint mirrors, with the endpoints of each, and
      nothing else. It is tried again exactly when one of them is left, or those of a headless mirror could not be
      listed. */
  lemma UnexportIsExact(cfg: Config, env: Env, st: State, k: Key)
    ensures HandleUnexported(cfg, env, st, k).1 == Crash <==> !env.ok(GetService(MirrorKey(cfg.link, k)))
    ensures var (post, outcome) := HandleUnexported(cfg, env, st, k); var mk := MirrorKey(cfg.link, k);
            outcome != Crash ==>
              && (forall n :: n in post.services <==>
                                n in st.services && !(BelongsTo(cfg, st, k, n) && Deletable(cfg, env, k, n)))
              && (forall n :: n in post.endpoints <==>
                                n in st.endpoints && !(BelongsTo(cfg, st, k, n) && Deletable(cfg, env, k, n)))
              && (forall n :: n in post.services ==> post.services[n] == st.services[n])
              && (forall n :: n in post.endpoints ==> post.endpoints[n] == st.endpoints[n])
              && (outcome == Retry <==>
                    || (exists n :: BelongsTo(cfg, st, k, n) && n in post.services)
                    || (mk in st.services && st.services[mk].clusterIP == "None" && !env.ok(ListServices)))
              && (outcome == Retry || outcome == Done)
              && (cfg.link.cluster != "" ==> k !in AsMap(post.mirrorStatus))
              && post.namespaces == st.namespaces && post.federatedStatus == st.federatedStatus
  {
    hide MirrorKey, AsMap, Delete, HandleUnexported, BelongsTo, Deletable;
    var mk := MirrorKey(cfg.link, k);
    DeleteRefines(st.mirrorStatus, k);
    UnexportCrashes(cfg, env, st, k);
    if env.ok(GetService(mk)) {
      UnexportTakes(cfg, env, st, k);
      UnexportLeft(cfg, env, st, k);
      forall n | BelongsTo(cfg, st, k, n) ensures n in st.services && mk in st.services {
        BelongingIsThere(cfg, st, k, n);
      }
    }
  }

  lemma UnexportCrashes(cfg: Config, env: Env, st: State, k: Key)
    ensures HandleUnexported(cfg, env, st, k).1 == Crash <==> !env.ok(GetService(MirrorKey(cfg.link, k)))
  {
    hide MirrorKey, Delete;
  }

  lemma BelongingIsThere(cfg: Config, st: State, k: Key, n: Key)
    requires BelongsTo(cfg, st, k, n)
    ensures n in st.services && MirrorKey(cfg.link, k) in st.services
  {
    hide MirrorKey;
  }

  /** The endpoint mirrors that an unexport looks for. */
  lemma LabelledFor(st: State, name: string, n: Key)
    ensures n in EndpointMirrorsOf(st, name) <==>
              n in st.services && Lookup(st.services[n].labels, HEADLESS_NAME) == Some(name)
  {
  }

  /** Purging some services and then deleting one. */
  lemma TakenInTwo(env: Env, st: State, keys: set<Key>, mk: Key)
    requires mk in st.services
    ensures var gone := set n | n in st.services && env.ok(DeleteServiceCall(n)) && (n in keys || n == mk);
            DeleteService(env, Purge(env, st, keys), mk).0
              == st.(services := st.services - gone, endpoints := st.endpoints - gone)
  {
    var gone := set n | n in st.services && env.ok(DeleteServiceCall(n)) && (n in keys || n == mk);
    var purged := set n | n in keys && n in st.services && env.ok(DeleteServiceCall(n));
    assert gone == purged + (if env.ok(DeleteServiceCall(mk)) then {mk} else {});
    assert st.services - gone == st.services - purged - (if env.ok(DeleteServiceCall(mk)) then {mk} else {});
    assert st.endpoints - gone == st.endpoints - purged - (if env.ok(DeleteServiceCall(mk)) then {mk} else {});
  }

  function Auxiliary(env: Env, st: State, mk: Key): set<Key>
    requires mk in st.services
  {
    if Headless(st.services[mk]) && env.ok(ListServices) then EndpointMirrorsOf(st, mk.name) else {}
  }

  lemma UnexportUnfolds(cfg: Config, env: Env, st: State, k: Key)
    requires env.ok(GetService(MirrorKey(cfg.link, k)))
    ensures var post := HandleUnexported(cfg, env, st, k).0; var st1 := DropMirrorStatus(cfg, st, k);
            var mk := MirrorKey(cfg.link, k);
            post == if mk in st.services then DeleteService(env, Purge(env, st1, Auxiliary(env, st1, mk)), mk).0
                    else st1
  {
    hide MirrorKey, Delete, EndpointMirrorsOf, Purge, DeleteService;
  }

  lemma UnexportTakes(cfg: Config, env: Env, st: State, k: Key)
    requires env.ok(GetService(MirrorKey(cfg.link, k)))
    ensures var post := HandleUnexported(cfg, env, st, k).0;
            var gone := set n | n in st.services && BelongsTo(cfg, st, k, n) && Deletable(cfg, env, k, n);
            post == DropMirrorStatus(cfg, st, k).(services := st.services - gone, endpoints := st.endpoints - gone)
  {
    hide HandleUnexported, MirrorKey, Delete, EndpointMirrorsOf, Purge, DeleteService;
    var mk := MirrorKey(cfg.link, k);
    var st1 := DropMirrorStatus(cfg, st, k);
    var gone := set n | n in st.services && BelongsTo(cfg, st, k, n) && Deletable(cfg, env, k, n);
    UnexportUnfolds(cfg, env, st, k);
    if mk in st.services {
      var auxiliary := Auxiliary(env, st1, mk);
      TakenInTwo(env, st1, auxiliary, mk);
      forall n ensures n in auxiliary <==> n in st.services && Headless(st.services[mk]) && env.ok(ListServices)
                                           && Lookup(st.services[n].labels, HEADLESS_NAME) == Some(mk.name) {
        LabelledFor(st1, mk.name, n);
      }
      assert gone == set n | n in st.services && env.ok(DeleteServiceCall(n)) && (n in auxiliary || n == mk);
    } else {
      assert gone == {};
      assert st.services - gone == st.services && st.endpoints - gone == st.endpoints;
    }
  }

  lemma UnexportLeft(cfg: Config, env: Env, st: State, k: Key)
    requires env.ok(GetService(MirrorKey(cfg.link, k)))
    ensures var outcome := HandleUnexported(cfg, env, st, k).1; var mk := MirrorKey(cfg.link, k);
            && (outcome == Retry <==>
                  || (exists n :: BelongsTo(cfg, st, k, n) && !Deletable(cfg, env, k, n))
                  || (mk in st.services && st.services[mk].clusterIP == "None" && !env.ok(ListServices)))
            && (outcome == Retry || outcome == Done)
  {
    hide MirrorKey, Delete, EndpointMirrorsOf;
    var mk := MirrorKey(cfg.link, k);
    var st1 := DropMirrorStatus(cfg, st, k);
    forall n ensures n in EndpointMirrorsOf(st1, mk.name) <==>
                       n in st.services && Lookup(st.services[n].labels, HEADLESS_NAME) == Some(mk.name) {
      LabelledFor(st1, mk.name, n);
    }
    if mk in st.services {
      assert BelongsTo(cfg, st, k, mk);
      if a :| a in EndpointMirrorsOf(st1, mk.name) && !env.ok(DeleteServiceCall(a)) && Headless(st.services[mk]) {
        assert BelongsTo(cfg, st, k, a);
      }
    }
  }

  /* ---------- federated services ---------- */

  /** A federated service as its first member creates it: the member's own labels and annotations, without those of
      mirrors and without topology hints, its ports without node ports, and the member in the annotation of its kind. */
  lemma FederatedContents(cfg: Config, k: Key, svc: Service, key: string)
    ensures var labels := CommonLabels(svc.labels);
            Lookup(labels, key) == if key == MIRRORED_RESOURCE then Some("true")
                                   else if HasPrefix(key, SVC_MIRROR_PREFIX) then None else Lookup(svc.labels, key)
    ensures var annotations := CreatedAnnotations(cfg.link.cluster, k.name, svc.annotations);
            Lookup(annotations, key) ==
              if cfg.link.cluster == "" && key == LOCAL_DISCOVERY then Some(k.name)
              else if cfg.link.cluster != "" && key == REMOTE_DISCOVERY then Some(k.name + "@" + cfg.link.cluster)
              else if key == TOPOLOGY_HINTS || key == TOPOLOGY_MODE then None
              else Lookup(svc.annotations, key)
  {
    hide HasPrefix;
    ReservedKeys();
    DiscoveryIsNoTopology();
  }

  lemma DiscoveryIsNoTopology()
    ensures LOCAL_DISCOVERY !in {TOPOLOGY_HINTS, TOPOLOGY_MODE} && REMOTE_DISCOVERY !in {TOPOLOGY_HINTS, TOPOLOGY_MODE}
  {
    assert LOCAL_DISCOVERY[0] == 'm' && REMOTE_DISCOVERY[0] == 'm';
    assert TOPOLOGY_HINTS[0] == 's' && TOPOLOGY_MODE[0] == 's';
  }

  /** How the creation of a federated service ends, what it reports, and what is then there. */
  lemma CreateFederatedOutcomes(cfg: Config, env: Env, st: State, k: Key, svc: Service)
    ensures var (post, outcome) := HandleCreateFederated(cfg, env, st, k, svc); var fk := FederatedKey(k);
            var goes := svc.clusterIP != "None" && HasNamespace(cfg, env, st, k.ns) && env.ok(CreateServiceCall(fk));
            && (outcome == Fail <==> svc.clusterIP == "None")
            && (outcome == Done <==> goes || (svc.clusterIP != "None" && LacksNamespace(cfg, env, st, k.ns)))
            && outcome != Crash && post.endpoints == st.endpoints && post.mirrorStatus == st.mirrorStatus
            && (if goes then Reads(cfg, post.federatedStatus, k, true, "Mirrored", Some(fk))
                else if outcome == Done then Reads(cfg, post.federatedStatus, k, false, "MissingNamespace", None)
                else if outcome == Fail then Reads(cfg, post.federatedStatus, k, false, "InvalidService", None)
                else Reads(cfg, post.federatedStatus, k, false, "Error", None))
            && (if goes && fk !in st.services then
                  && fk in post.services && post.services == st.services[fk := post.services[fk]]
                  && post.services[fk].labels == CommonLabels(svc.labels)
                  && post.services[fk].annotations == CreatedAnnotations(cfg.link.cluster, k.name, svc.annotations)
                  && post.services[fk].ports == RemapPorts(svc.ports)
                  && post.services[fk].clusterIP == env.assignIP(fk) && post.services[fk].version == st.now
                else post.services == st.services)
  {
    hide FederatedKey, CommonLabels, CreatedAnnotations, RemapPorts, Update, AsMap;
    hide EnsureNamespace, HasNamespace, LacksNamespace, Reads, PutFederatedStatus;
    NamespaceIsEnsured(cfg, env, st, k.ns);
    assert FederatedKey(k).ns == k.ns by { FederatedHandlers.FederatedNamespace(k); }
    assert |""| != |CLUSTER_IP_NONE|;
    var fk := FederatedKey(k);
    var st1 := EnsureNamespace(cfg, env, st, k.ns).0;
    var federated := Service(CommonLabels(svc.labels), CreatedAnnotations(cfg.link.cluster, k.name, svc.annotations),
                             RemapPorts(svc.ports), "", 0);
    var st2 := CreateService(env, st1, fk, federated).0;
    FederatedReads(cfg, st, k, Failure("InvalidService"));
    FederatedReads(cfg, st1, k, Failure("Error"));
    FederatedReads(cfg, st1, k, Failure("MissingNamespace"));
    FederatedReads(cfg, st2, k, Failure("Error"));
    FederatedReads(cfg, st2, k, Mirrored(fk));
  }

  lemma FederatedReads(cfg: Config, st: State, k: Key, c: Condition)
    ensures var post := PutFederatedStatus(cfg, st, k, c);
            && Reads(cfg, post.federatedStatus, k, c.mirrored, c.reason, c.localRef)
            && post == st.(federatedStatus := post.federatedStatus)
  {
    hide Update, Reads;
    PutReads(cfg, st, k, c);
  }

  /** How a join ends, what it reports, and what it writes: of the object as copied, the discovery annotation alone. */
  lemma JoinOutcomes(cfg: Config, env: Env, st: State, ev: Event)
    requires ev.JoinFederated?
    ensures var out := HandleJoin(cfg, env, st, ev); var fk := FederatedKey(ev.key);
            var joined := JoinedAnnotations(cfg.link.cluster, ev.key.name, ev.local.annotations);
            && (out.outcome == Fail <==> ev.svc.clusterIP == "None")
            && (out.outcome == Crash <==>
                  ev.svc.clusterIP != "None" && joined.Some? && ev.local.annotations == map[])
            && (out.outcome == Retry <==>
                  && ev.svc.clusterIP != "None" && joined.Some? && ev.local.annotations != map[]
                  && !(env.ok(UpdateServiceCall(fk)) && fk in st.services
                       && st.services[fk].version == ev.local.version))
            && (if out.outcome == Done && joined.Some? then
                  && fk in out.st.services && out.st.services == st.services[fk := out.st.services[fk]]
                  && out.st.services[fk] == ev.local.(annotations := joined.value, version := st.now)
                  && Reads(cfg, out.st.federatedStatus, ev.key, true, "Mirrored", Some(fk))
                else out.st.services == st.services)
            && (out.outcome == Retry ==> Reads(cfg, out.st.federatedStatus, ev.key, false, "Error", None))
            && (out.outcome == Fail ==> Reads(cfg, out.st.federatedStatus, ev.key, false, "InvalidService", None))
            && (out.outcome == Crash || (joined.None? && out.outcome == Done) ==> out.st == st)
            && (forall key :: joined.Some? && key != LOCAL_DISCOVERY && key != REMOTE_DISCOVERY ==>
                  Lookup(joined.value, key) == Lookup(ev.local.annotations, key))
  {
    hide FederatedKey, Split, Reads, PutFederatedStatus;
    var fk := FederatedKey(ev.key);
    FederatedReads(cfg, st, ev.key, Failure("InvalidService"));
    var joined := JoinedAnnotations(cfg.link.cluster, ev.key.name, ev.local.annotations);
    if joined.Some? {
      var st1 := UpdateService(env, st, fk, ev.local.(annotations := joined.value)).0;
      FederatedReads(cfg, st1, ev.key, Mirrored(fk));
      FederatedReads(cfg, st1, ev.key, Failure("Error"));
    }
  }

  /** How a leave ends, and what it leaves of the object: its other annotations, or nothing if no member is left. */
  lemma LeaveOutcomes(cfg: Config, env: Env, st: State, k: Key)
    ensures var (post, outcome) := HandleLeave(cfg, env, st, k); var fk := FederatedKey(k);
            var there := env.ok(GetService(fk)) && fk in st.services;
            var left := if there then LeftAnnotations(cfg.link.cluster, k.name, st.services[fk].annotations) else None;
            var last := left.Some? && Get(left.value, REMOTE_DISCOVERY) == "" && Get(left.value, LOCAL_DISCOVERY) == "";
            && (cfg.link.cluster != "" ==> k !in AsMap(post.federatedStatus))
            && (outcome == Retry <==>
                  || !env.ok(GetService(fk))
                  || (left.Some? && !env.ok(if last then DeleteServiceCall(fk) else UpdateServiceCall(fk))))
            && (outcome == Retry || outcome == Done)
            && (if left.None? || outcome == Retry then post.services == st.services && post.endpoints == st.endpoints
                else if last then post.services == st.services - {fk} && post.endpoints == st.endpoints - {fk}
                else
                  && post.services == st.services[fk := st.services[fk].(annotations := left.value, version := st.now)]
                  && post.endpoints == st.endpoints)
            && (forall key :: left.Some? && key != LOCAL_DISCOVERY && key != REMOTE_DISCOVERY ==>
                  Lookup(left.value, key) == Lookup(st.services[fk].annotations, key))
            && post.mirrorStatus == st.mirrorStatus && post.namespaces == st.namespaces
  {
    hide FederatedKey, Split, AsMap, Delete, Join, Without;
    DeleteRefines(st.federatedStatus, k);
    DeleteRefines(Delete(st.federatedStatus, k), k);
  }

  /* ---------- decisions ---------- */

  /** The mirror that is there records another version than the service has. */
  predicate IsOutdated(cfg: Config, st: State, k: Key, svc: Service) {
    var mk := MirrorKey(cfg.link, k);
    mk in st.services && REMOTE_VERSION in st.services[mk].annotations
    && Lookup(st.services[mk].annotations, REMOTE_VERSION) != Some(FormatNat(svc.version))
  }

  /** What is decided on the mirror of a service: an export exactly if it is wanted and has none, an update with the
      objects as they are exactly if it is wanted and the mirror is of another version, an unexport exactly if it is not
      wanted and has a mirror of this link. */
  lemma MirrorDecisionIsExact(cfg: Config, env: Env, st: State, k: Key, svc: Service)
    ensures var (events, outcome) := MirrorDecision(cfg, env, st, k, svc); var mk := MirrorKey(cfg.link, k);
            var wanted := Desired(cfg.link, svc.labels); var read := env.ok(GetService(mk));
            && (events == [Exported(k, svc)] <==> wanted && read && mk !in st.services)
            && ((exists local, ep :: events == [Updated(k, local, ep, svc)]) <==>
                  wanted && read && IsOutdated(cfg, st, k, svc) && env.ok(GetEndpoints(mk)))
            && (forall local, ep :: events == [Updated(k, local, ep, svc)] ==>
                  && mk in st.services && local == st.services[mk]
                  && ep == if mk in st.endpoints then Some(st.endpoints[mk]) else None)
            && (events == [Unexported(k)] <==>
                  && !wanted && read && mk in st.services && MIRRORED_RESOURCE in st.services[mk].labels
                  && Get(st.services[mk].labels, CLUSTER_NAME) == cfg.link.cluster)
            && (events != [] ==> |events| == 1 && (events[0] == Exported(k, svc) || events[0] == Unexported(k)
                                                   || exists local, ep :: events[0] == Updated(k, local, ep, svc)))
            && (outcome == Retry <==>
                  wanted && (!read || (IsOutdated(cfg, st, k, svc) && !env.ok(GetEndpoints(mk)))))
            && (outcome == Retry || outcome == Done)
  {
    hide MirrorKey, Desired, FormatNat, Get;
    var mk := MirrorKey(cfg.link, k);
    if mk in st.services {
      var local, ep := st.services[mk], if mk in st.endpoints then Some(st.endpoints[mk]) else None;
      if MirrorDecision(cfg, env, st, k, svc).0 == [Updated(k, local, ep, svc)] {
        assert MirrorDecision(cfg, env, st, k, svc).0[0] == Updated(k, local, ep, svc);
      }
    }
  }

  /** What is decided on the federated service of a service, and when the decision has to be made again. */
  lemma FederatedDecisionIsExact(cfg: Config, env: Env, st: State, k: Key, svc: Service)
    ensures var (post, events, outcome) := FederatedDecision(cfg, env, st, k, svc); var fk := FederatedKey(k);
            var member := IsFederatedMember(cfg.link, svc.labels); var read := env.ok(GetService(fk));
            && (events == [CreateFederated(k, svc)] <==> member && read && fk !in st.services)
            && (fk in st.services ==> (events == [JoinFederated(k, st.services[fk], svc)] <==> member && read))
            && (events == [LeaveFederated(k)] <==>
                  !member && read && fk in st.services && MIRRORED_RESOURCE in st.services[fk].labels)
            && (events == [] <==>
                  !read || (!member && !(fk in st.services && MIRRORED_RESOURCE in st.services[fk].labels)))
            && (outcome == Retry <==> member && !read) && (outcome == Retry || outcome == Done)
            && post == st.(federatedStatus := post.federatedStatus) && (outcome == Done ==> post == st)
            && (outcome == Retry ==> Reads(cfg, post.federatedStatus, k, false, "Error", None))
  {
    hide FederatedKey, IsFederatedMember, PutFederatedStatus, Reads;
    FederatedReads(cfg, st, k, Failure("Error"));
  }

  /** A decision is first on the mirror; a new export, or a failure to decide, ends it. */
  lemma DecisionOrder(cfg: Config, env: Env, st: State, ev: Event)
    requires ev.OnAdd? || ev.OnUpdate?
    ensures var out := CreateOrUpdate(cfg, env, st, ev);
            var (first, outcome) := MirrorDecision(cfg, env, st, ev.key, ev.svc);
            if outcome == Retry || first == [Exported(ev.key, ev.svc)] then
              out.st == st && out.spawned == first && out.outcome == outcome
            else
              var (post, second, ended) := FederatedDecision(cfg, env, st, ev.key, ev.svc);
              out.st == post && out.spawned == first + second && out.outcome == ended
  {
    hide MirrorDecision, FederatedDecision;
    MirrorDecisionIsExact(cfg, env, st, ev.key, ev.svc);
  }

  /** A deleted service is unexported exactly if it was wanted, and leaves exactly if it was a member. */
  lemma DeletionIsExact(cfg: Config, st: State, ev: Event)
    requires ev.OnDelete?
    ensures var out := HandleDelete(cfg, st, ev);
            && out.st == st && out.outcome == Done
            && (forall e :: e in out.spawned <==>
                  || (e == Unexported(ev.key) && Desired(cfg.link, ev.svc.labels))
                  || (e == LeaveFederated(ev.key) && IsFederatedMember(cfg.link, ev.svc.labels)))
            && |out.spawned| == (if Desired(cfg.link, ev.svc.labels) then 1 else 0)
                                + (if IsFederatedMember(cfg.link, ev.svc.labels) then 1 else 0)
  {
    hide Desired, IsFederatedMember;
  }

  /* ---------- endpoints that are not headless ---------- */

  ghost predicate AnyReady(ep: Endpoints) {
    exists s :: s in ep.subsets && s.addresses != []
  }

  lemma AnyReadyMeans(ep: Endpoints)
    ensures AnyReady(ep) <==> HasReady(ep.subsets)
  {
    if HasReady(ep.subsets) {
      var i :| 0 <= i < |ep.subsets| && |ep.subsets[i].addresses| > 0;
      assert ep.subsets[i] in ep.subsets;
    }
  }

  /** An endpoints event changes the mirror's endpoints exactly if one of the two has a ready address and the other
      has not: it takes all subsets away, or puts in the one that points at the gateway. */
  lemma EndpointsWritten(cfg: Config, remote: Remote, env: Env, st: State, k: Key, exported: Endpoints)
    requires !IsHeadlessEndpoints(exported)
    ensures var (post, outcome) := HandleEndpoints(cfg, remote, env, st, k, exported); var mk := MirrorKey(cfg.link, k);
            var there := env.ok(GetEndpoints(mk)) && mk in st.endpoints;
            && (!there ==> post == st && outcome == Retry)
            && (there && AnyReady(st.endpoints[mk]) == AnyReady(exported) ==> post == st && outcome == Done)
            && (there && AnyReady(st.endpoints[mk]) && !AnyReady(exported) ==>
                  (outcome == if env.ok(UpdateEndpointsCall(mk)) then Done else Fail))
            && (there && !AnyReady(st.endpoints[mk]) && AnyReady(exported) ==>
                  var known := env.ok(RemoteGetService(k)) && k in remote.services;
                  && (outcome == Retry <==> !known || !Answers(cfg, env))
                  && (outcome == Done <==>
                        && known && Answers(cfg, env) && (exists number :: HasGatewayPort(cfg.link, number))
                        && env.ok(UpdateEndpointsCall(mk))))
            && (outcome == Done && post != st ==>
                  && there && mk in post.endpoints
                  && post == st.(endpoints := st.endpoints[mk := post.endpoints[mk]])
                  && post.endpoints[mk].labels == st.endpoints[mk].labels
                  && post.endpoints[mk].annotations == st.endpoints[mk].annotations
                  && if AnyReady(exported) then
                       && k in remote.services
                       && PointsAtGateway(cfg, env, st.gatewayAlive, remote.services[k].ports,
                                          post.endpoints[mk].subsets)
                     else post.endpoints[mk].subsets == [])
            && (outcome != Done ==> post == st) && outcome != Crash
  {
    hide MirrorKey, ResolveGateway, EndpointPorts, Readiness, HasReady, AnyReady, HasGatewayPort, PointsAtGateway;
    hide Answered, Split, GatewaySubsets;
    var mk := MirrorKey(cfg.link, k);
    AnyReadyMeans(exported);
    if mk in st.endpoints { AnyReadyMeans(st.endpoints[mk]); }
    ResolveGatewayIsExact(cfg.link, env.lookup);
    NoSubsets(st.gatewayAlive);
    if k in remote.services {
      EndpointPortsAreExact(cfg.link, remote.services[k].ports);
      if ResolveGateway(cfg.link, env.lookup).Some? && EndpointPorts(cfg.link, remote.services[k].ports).Some? {
        SubsetsPointAtGateway(cfg, env, st, remote.services[k].ports);
      }
    }
  }

  /* ---------- the gateway's own endpoints ---------- */

  /** The probe endpoints: the gateway's addresses under the probe port, all ready. */
  lemma ProbeWritten(cfg: Config, env: Env, st: State, addresses: seq<Address>)
    ensures var post := RepairProbe(cfg, env, st, addresses);
            var n := Key(cfg.mirrorNamespace, "probe-gateway-" + cfg.link.cluster);
            && (post != st ==>
                  && n in post.endpoints && post == st.(endpoints := st.endpoints[n := post.endpoints[n]])
                  && ParseInt(cfg.link.probePort, HALF_32).Some?
                  && post.endpoints[n] == Endpoints(map[CLUSTER_NAME := cfg.link.cluster],
                                                    map[GATEWAY_IDENTITY := cfg.link.gatewayIdentity],
                       [Subset(addresses, [], [EndpointPort("mc-probe", "TCP",
                                                            ParseInt(cfg.link.probePort, HALF_32).value)])], st.now))
            && (&& ParseInt(cfg.link.probePort, HALF_32).Some? && env.ok(GetEndpoints(n))
                && (if n in st.endpoints then env.ok(UpdateEndpointsCall(n))
                    else env.ok(CreateEndpointsCall(n)) && n.ns in st.namespaces) ==>
                  n in post.endpoints && post.endpoints[n].subsets != [] && post.endpoints[n].version == st.now)
  {
    hide ParseInt;
  }
}
