/** What each event of the watcher's queue does, as a function of the state it is handled in. */
module Handlers {
  import opened Strings
  import opened Kubernetes
  import opened Mirror
  import opened StatusList
  import opened Federation
  import opened Api
  import opened HeadlessMirror

  type State = Api.State

  /** `local` and `localEndpoints` are the copies that were current when the event was queued. */
  datatype Event =
    | OnAdd(key: Key, svc: Service)
    | OnUpdate(key: Key, svc: Service)
    | OnDelete(key: Key, svc: Service)
    | OnAddEndpoints(key: Key, ep: Endpoints)
    | OnUpdateEndpoints(key: Key, ep: Endpoints)
    | Exported(key: Key, svc: Service)
    | Updated(key: Key, local: Service, localEndpoints: Option<Endpoints>, svc: Service)
    | Unexported(key: Key)
    | CreateFederated(key: Key, svc: Service)
    | JoinFederated(key: Key, local: Service, svc: Service)
    | LeaveFederated(key: Key)
    | ClusterUnregistered
    | GcTriggered
    | RepairEndpoints
    | NamespaceAdded(ns: string)

  /** What the endpoints informer queues: exported endpoints, new ones only if they are headless, and changed ones
      only outside discovery mode. */
  predicate PassesFilter(link: Link, ev: Event) {
    && (ev.OnAddEndpoints? ==> IsExported(link, ev.ep.labels) && IsHeadlessEndpoints(ev.ep))
    && (ev.OnUpdateEndpoints? ==> IsExported(link, ev.ep.labels) && !IsRemoteDiscovery(link, ev.ep.labels))
  }

  /** The new state, the events queued on the way, how it ended, and the event as it is now: handlers
      edit the copies inside the event, and a retry sees the edits. */
  datatype Out = Out(st: State, spawned: seq<Event>, outcome: Outcome, event: Event)

  /* ---------- deciding what a remote service needs ---------- */

  function MirrorDecision(cfg: Config, env: Env, st: State, k: Key, svc: Service): (seq<Event>, Outcome) {
    var mk := MirrorKey(cfg.link, k);
    if Desired(cfg.link, svc.labels) then
      if !env.ok(GetService(mk)) then ([], Retry)
      else if mk !in st.services then ([Exported(k, svc)], Done)
      else
        var local := st.services[mk];
        if REMOTE_VERSION in local.annotations && local.annotations[REMOTE_VERSION] != FormatNat(svc.version) then
          if !env.ok(GetEndpoints(mk)) then ([], Retry)
          else ([Updated(k, local, if mk in st.endpoints then Some(st.endpoints[mk]) else None, svc)], Done)
        else ([], Done)
    else if env.ok(GetService(mk)) && mk in st.services && MIRRORED_RESOURCE in st.services[mk].labels
            && Get(st.services[mk].labels, CLUSTER_NAME) == cfg.link.cluster
    then ([Unexported(k)], Done)
    else ([], Done)
  }

  function FederatedDecision(cfg: Config, env: Env, st: State, k: Key, svc: Service): (State, seq<Event>, Outcome) {
    var fk := FederatedKey(k);
    if IsFederatedMember(cfg.link, svc.labels) then
      if !env.ok(GetService(fk)) then (PutFederatedStatus(cfg, st, k, Failure(REASON_ERROR)), [], Retry)
      else if fk !in st.services then (st, [CreateFederated(k, svc)], Done)
      else (st, [JoinFederated(k, st.services[fk], svc)], Done)
    else if env.ok(GetService(fk)) && fk in st.services && MIRRORED_RESOURCE in st.services[fk].labels
    then (st, [LeaveFederated(k)], Done)
    else (st, [], Done)
  }

  /** createOrUpdateService: nothing more is decided once a new export is queued. */
  function CreateOrUpdate(cfg: Config, env: Env, st: State, ev: Event): Out
    requires ev.OnAdd? || ev.OnUpdate?
  {
    var (first, outcome) := MirrorDecision(cfg, env, st, ev.key, ev.svc);
    if outcome != Done || (first != [] && first[0].Exported?) then Out(st, first, outcome, ev)
    else
      var (st', second, outcome') := FederatedDecision(cfg, env, st, ev.key, ev.svc);
      Out(st', first + second, outcome', ev)
  }

  function HandleDelete(cfg: Config, st: State, ev: Event): Out
    requires ev.OnDelete?
  {
    var first := if Desired(cfg.link, ev.svc.labels) then [Unexported(ev.key)] else [];
    var second := if IsFederatedMember(cfg.link, ev.svc.labels) then [LeaveFederated(ev.key)] else [];
    Out(st, first + second, Done, ev)
  }

  function HandleNamespaceAdded(remote: Remote, env: Env, st: State, ns: string): Out {
    if !env.ok(RemoteListServices(ns)) then Out(st, [], Retry, NamespaceAdded(ns))
    else Out(st, OnAdds(remote, env.list(RemoteIn(remote, ns))), Done, NamespaceAdded(ns))
  }

  function RemoteIn(remote: Remote, ns: string): set<Key> {
    set k | k in remote.services && k.ns == ns
  }

  function OnAdds(remote: Remote, keys: seq<Key>): seq<Event> {
    if keys == [] then []
    else
      var n := |keys| - 1;
      OnAdds(remote, keys[..n]) + if keys[n] in remote.services then [OnAdd(keys[n], remote.services[keys[n]])] else []
  }

  /* ---------- mirrors ---------- */

  function HandleExported(cfg: Config, remote: Remote, env: Env, st: State, k: Key, svc: Service): (State, Outcome) {
    var mk := MirrorKey(cfg.link, k);
    if cfg.headlessEnabled && Headless(svc) then (PutMirrorStatus(cfg, st, k, Failure(REASON_INVALID_SERVICE)), Done)
    else
      var (st1, ns) := EnsureNamespace(cfg, env, st, k.ns);
      if ns == Unknown then (PutMirrorStatus(cfg, st1, k, Failure(REASON_ERROR)), Retry)
      else if ns == Absent then (PutMirrorStatus(cfg, st1, k, Failure(REASON_MISSING_NAMESPACE)), Done)
      else
        var (st2, created) := CreateService(env, st1, mk, NewMirror(cfg, k, svc, ""));
        if created != Ok && created != AlreadyExists then (PutMirrorStatus(cfg, st2, k, Failure(REASON_ERROR)), Retry)
        else if IsRemoteDiscovery(cfg.link, svc.labels) then (PutMirrorStatus(cfg, st2, k, Mirrored(mk)), Done)
        else
          var (st3, outcome) := CreateGatewayEndpoints(cfg, remote, env, st2, k, svc);
          (PutMirrorStatus(cfg, st3, k, if outcome == Done then Mirrored(mk) else Failure(REASON_ERROR)), outcome)
  }

  /** Brings the endpoints of an existing mirror in line with the mode the update asks for. */
  function UpdateMode(cfg: Config, remote: Remote, env: Env, st: State, ev: Event): (State, Outcome)
    requires ev.Updated?
  {
    var k, svc := ev.key, ev.svc;
    var mk := MirrorKey(cfg.link, k);
    var failed := Failure(REASON_ERROR);
    if IsRemoteDiscovery(cfg.link, svc.labels) then
      if ev.localEndpoints.None? then (st, Done)
      else
        var (st1, deleted) := DeleteEndpoints(env, st, mk);
        if deleted == Ok then (st1, Done) else (PutMirrorStatus(cfg, st1, k, failed), Retry)
    else if ev.localEndpoints.None? then
      var (st1, outcome) := CreateGatewayEndpoints(cfg, remote, env, st, k, svc);
      if outcome == Done then (st1, Done) else (PutMirrorStatus(cfg, st1, k, failed), outcome)
    else
      var addresses := ResolveGateway(cfg.link, env.lookup);
      var ports := EndpointPorts(cfg.link, svc.ports);
      if addresses.None? then (PutMirrorStatus(cfg, st, k, failed), Retry)
      else if ports.None? then (st, Fail)
      else
        var ep := ev.localEndpoints.value;
        var ep' := Endpoints(ep.labels, ep.annotations[GATEWAY_IDENTITY := cfg.link.gatewayIdentity],
                             GatewaySubsets(addresses.value, ports.value), ep.version);
        var (st1, updated) := UpdateEndpoints(env, st, mk, ByLiveness(st, ep'));
        if updated == Ok then (st1, Done) else (PutMirrorStatus(cfg, st1, k, failed), Retry)
  }

  function UpdatedLocal(cfg: Config, ev: Event): Service
    requires ev.Updated?
  {
    Service(MirrorLabels(cfg.link, ev.key, ev.svc.labels), MirrorAnnotations(cfg.link, ev.key, ev.svc),
            RemapPorts(ev.svc.ports), ev.local.clusterIP, ev.local.version)
  }

  function HandleUpdated(cfg: Config, remote: Remote, env: Env, st: State, ev: Event): Out
    requires ev.Updated?
  {
    var (st1, outcome) := UpdateMode(cfg, remote, env, st, ev);
    if outcome != Done then Out(st1, [], outcome, ev)
    else
      var mk := MirrorKey(cfg.link, ev.key);
      var local := UpdatedLocal(cfg, ev);
      var (st2, updated) := UpdateService(env, st1, mk, local);
      var c := if updated == Ok then Mirrored(mk) else Failure(REASON_ERROR);
      Out(PutMirrorStatus(cfg, st2, ev.key, c), [], if updated == Ok then Done else Retry,
          Updated(ev.key, local, ev.localEndpoints, ev.svc))
  }

  /** A lister error other than NotFound leaves the handler with no service to look at. */
  function HandleUnexported(cfg: Config, env: Env, st: State, k: Key): (State, Outcome) {
    var st1 := DropMirrorStatus(cfg, st, k);
    var mk := MirrorKey(cfg.link, k);
    if !env.ok(GetService(mk)) then (st1, Crash)
    else if mk !in st1.services then (st1, Done)
    else
      var auxiliary := if Headless(st1.services[mk]) && env.ok(ListServices) then EndpointMirrorsOf(st1, mk.name)
                       else {};
      var st2 := Purge(env, st1, auxiliary);
      var (st3, deleted) := DeleteService(env, st2, mk);
      var failed :=
        || (Headless(st1.services[mk]) && !env.ok(ListServices))
        || (exists a :: a in auxiliary && !env.ok(DeleteServiceCall(a)))
        || deleted == Failed;
      (st3, if failed then Retry else Done)
  }

  /* ---------- federated services ---------- */

  function HandleCreateFederated(cfg: Config, env: Env, st: State, k: Key, svc: Service): (State, Outcome) {
    if Headless(svc) then (PutFederatedStatus(cfg, st, k, Failure(REASON_INVALID_SERVICE)), Fail)
    else
      var (st1, ns) := EnsureNamespace(cfg, env, st, k.ns);
      if ns == Unknown then (PutFederatedStatus(cfg, st1, k, Failure(REASON_ERROR)), Retry)
      else if ns == Absent then (PutFederatedStatus(cfg, st1, k, Failure(REASON_MISSING_NAMESPACE)), Done)
      else
        var fk := FederatedKey(k);
        var federated := Service(CommonLabels(svc.labels),
                                 CreatedAnnotations(cfg.link.cluster, k.name, svc.annotations),
                                 RemapPorts(svc.ports), "", 0);
        var (st2, created) := CreateService(env, st1, fk, federated);
        if created != Ok && created != AlreadyExists then
          (PutFederatedStatus(cfg, st2, k, Failure(REASON_ERROR)), Retry)
        else (PutFederatedStatus(cfg, st2, k, Mirrored(fk)), Done)
  }

  /** An object without annotations has a nil map, and the handler writes into it. */
  function HandleJoin(cfg: Config, env: Env, st: State, ev: Event): Out
    requires ev.JoinFederated?
  {
    var k := ev.key;
    if Headless(ev.svc) then Out(PutFederatedStatus(cfg, st, k, Failure(REASON_INVALID_SERVICE)), [], Fail, ev)
    else
      match JoinedAnnotations(cfg.link.cluster, k.name, ev.local.annotations)
      case None => Out(st, [], Done, ev)
      case Some(a) =>
        if ev.local.annotations == map[] then Out(st, [], Crash, ev)
        else
          var fk := FederatedKey(k);
          var local := ev.local.(annotations := a);
          var (st1, updated) := UpdateService(env, st, fk, local);
          var c := if updated == Ok then Mirrored(fk) else Failure(REASON_ERROR);
          Out(PutFederatedStatus(cfg, st1, k, c), [], if updated == Ok then Done else Retry,
              JoinFederated(k, local, ev.svc))
  }

  function HandleLeave(cfg: Config, env: Env, st: State, k: Key): (State, Outcome) {
    var st1 := DropFederatedStatus(cfg, st, k);
    var fk := FederatedKey(k);
    if !env.ok(GetService(fk)) then (st1, Retry)
    else if fk !in st1.services then (st1, Done)
    else
      match LeftAnnotations(cfg.link.cluster, k.name, st1.services[fk].annotations)
      case None => (st1, Done)
      case Some(a) =>
        if NoMembers(a) then
          var (st2, deleted) := DeleteService(env, st1, fk);
          if deleted == Failed then (st2, Retry) else (DropFederatedStatus(cfg, st2, k), Done)
        else
          var (st2, updated) := UpdateService(env, st1, fk, st1.services[fk].(annotations := a));
          (st2, if updated == Ok then Done else Retry)
  }

  /* ---------- garbage collection and clean-up ---------- */

  function LinkServices(cfg: Config, st: State): set<Key> {
    set k | k in st.services && OfLink(cfg.link, st.services[k].labels)
  }

  /** The remote service that a service of this link stands for, as garbage collection computes it. */
  function OriginOf(cfg: Config, k: Key, svc: Service): Key {
    Key(k.ns, OriginalName(cfg.link, if HEADLESS_NAME in svc.labels then svc.labels[HEADLESS_NAME] else k.name))
  }

  function Orphans(cfg: Config, remote: Remote, env: Env, st: State): set<Key> {
    set k | k in LinkServices(cfg, st) && env.ok(RemoteGetService(OriginOf(cfg, k, st.services[k])))
            && OriginOf(cfg, k, st.services[k]) !in remote.services
  }

  function HandleGc(cfg: Config, remote: Remote, env: Env, st: State): (State, Outcome) {
    if !env.ok(ListServices) then (st, Retry)
    else
      var orphans := Orphans(cfg, remote, env, st);
      var failed :=
        || (exists k :: k in LinkServices(cfg, st) && !env.ok(RemoteGetService(OriginOf(cfg, k, st.services[k]))))
        || (exists k :: k in orphans && !env.ok(DeleteServiceCall(k)));
      (Purge(env, st, orphans), if failed then Retry else Done)
  }

  function LinkEndpoints(cfg: Config, st: State): set<Key> {
    set k | k in st.endpoints && OfLink(cfg.link, st.endpoints[k].labels)
  }

  function PurgeEndpoints(env: Env, st: State, keys: set<Key>): State {
    st.(endpoints := st.endpoints - set k | k in keys && env.ok(DeleteEndpointsCall(k)))
  }

  function HandleCleanup(cfg: Config, env: Env, st: State): (State, Outcome) {
    if !env.ok(ListServices) then (st, Retry)
    else
      var services := LinkServices(cfg, st);
      var st1 := Purge(env, st, services);
      if !env.ok(ListEndpoints) then (st1, Retry)
      else
        var endpoints := LinkEndpoints(cfg, st1);
        var failed :=
          || (exists k :: k in services && !env.ok(DeleteServiceCall(k)))
          || (exists k :: k in endpoints && !env.ok(DeleteEndpointsCall(k)));
        (PurgeEndpoints(env, st1, endpoints), if failed then Retry else Done)
  }

  /* ---------- repair ---------- */

  function ProbeKey(cfg: Config): Key {
    Key(cfg.mirrorNamespace, ProbeGatewayName(cfg.link))
  }

  function ProbeEndpoints(cfg: Config, addresses: seq<Address>, port: int): Endpoints {
    Endpoints(
      map[CLUSTER_NAME := cfg.link.cluster],
      map[GATEWAY_IDENTITY := cfg.link.gatewayIdentity],
      [Subset(addresses, [], [EndpointPort("mc-probe", "TCP", port)])], 0)
  }

  /** The gateway's own endpoints are what gets probed, so they never become not ready. */
  function RepairProbe(cfg: Config, env: Env, st: State, addresses: seq<Address>): State {
    match ParseInt(cfg.link.probePort, HALF_32)
    case None => st
    case Some(port) =>
      var k := ProbeKey(cfg);
      var ep := ProbeEndpoints(cfg, addresses, port);
      if !env.ok(GetEndpoints(k)) then st
      else if k !in st.endpoints then CreateEndpoints(env, st, k, ep).0
      else if env.ok(UpdateEndpointsCall(k)) then st.(endpoints := st.endpoints[k := ep.(version := st.now)])
      else st
  }

  /** The one value the endpoints of a gateway mirror should have. */
  function Canonical(empty: bool, addresses: seq<Address>, ports: seq<EndpointPort>, alive: bool): seq<Subset> {
    if empty then [] else Readiness(alive, GatewaySubsets(addresses, ports))
  }

  /** Auxiliary services of headless mirrors have no remote endpoints of their own and are never empty. */
  function RepairedAsEmpty(cfg: Config, remote: Remote, k: Key, svc: Service): bool {
    HEADLESS_NAME !in svc.labels && RemoteIsEmpty(remote, OriginalKey(cfg.link, k))
  }

  predicate RepairReaches(cfg: Config, env: Env, k: Key, svc: Service) {
    && GatewayMirror(cfg.link, svc)
    && env.ok(GetEndpoints(k))
    && (HEADLESS_NAME in svc.labels || env.ok(RemoteGetEndpoints(OriginalKey(cfg.link, k))))
    && env.ok(UpdateEndpointsCall(k))
    && EndpointPorts(cfg.link, svc.ports).Some?
  }

  lemma ReachedHasPorts(cfg: Config, env: Env, k: Key, svc: Service)
    requires RepairReaches(cfg, env, k, svc)
    ensures EndpointPorts(cfg.link, svc.ports).Some?
  {
    hide GatewayMirror, EndpointPorts, OriginalKey;
  }

  function RepairOne(cfg: Config, remote: Remote, env: Env, st: State, addresses: seq<Address>, k: Key): Endpoints
    requires k in st.endpoints
  {
    var ep := st.endpoints[k];
    if k in st.services && RepairReaches(cfg, env, k, st.services[k]) then
      var svc := st.services[k];
      Endpoints(ep.labels, ep.annotations[GATEWAY_IDENTITY := cfg.link.gatewayIdentity],
                Canonical(RepairedAsEmpty(cfg, remote, k, svc), addresses, EndpointPorts(cfg.link, svc.ports).value,
                          st.gatewayAlive),
                st.now)
    else ep
  }

  function RepairAll(cfg: Config, remote: Remote, env: Env, st: State, addresses: seq<Address>): State {
    st.(endpoints := map k | k in st.endpoints :: RepairOne(cfg, remote, env, st, addresses, k))
  }

  /** Errors about single services are logged and skipped. */
  function HandleRepair(cfg: Config, remote: Remote, env: Env, st: State): (State, Outcome) {
    match ResolveGateway(cfg.link, env.lookup)
    case None => (st, Retry)
    case Some(addresses) =>
      var st1 := RepairProbe(cfg, env, st, addresses);
      if !env.ok(ListServices) then (st1, Retry)
      else (RepairAll(cfg, remote, env, st1, addresses), Done)
  }

  /* ---------- endpoints ---------- */

  function HandleEndpoints(cfg: Config, remote: Remote, env: Env, st: State, k: Key,
                           exported: Endpoints): (State, Outcome) {
    if IsHeadlessEndpoints(exported) then
      if cfg.headlessEnabled then HandleHeadless(cfg, remote, env, st, k, exported) else (st, Done)
    else
      var mk := MirrorKey(cfg.link, k);
      if !env.ok(GetEndpoints(mk)) || mk !in st.endpoints then (st, Retry)
      else
        var ep := st.endpoints[mk];
        if HasReady(ep.subsets) == HasReady(exported.subsets) then (st, Done)
        else if !HasReady(exported.subsets) then WriteSubsets(env, st, mk, [])
        else if !env.ok(RemoteGetService(k)) || k !in remote.services then (st, Retry)
        else
          var addresses := ResolveGateway(cfg.link, env.lookup);
          var ports := EndpointPorts(cfg.link, remote.services[k].ports);
          if addresses.None? then (st, Retry)
          else if ports.None? then (st, Fail)
          else WriteSubsets(env, st, mk, GatewaySubsets(addresses.value, ports.value))
  }

  function WriteSubsets(env: Env, st: State, mk: Key, subsets: seq<Subset>): (State, Outcome)
    requires mk in st.endpoints
  {
    var (st1, updated) := UpdateEndpoints(env, st, mk, ByLiveness(st, st.endpoints[mk].(subsets := subsets)));
    (st1, if updated == Ok then Done else Fail)
  }

  /* ---------- dispatch ---------- */

  function Plain(r: (State, Outcome), ev: Event): Out {
    Out(r.0, [], r.1, ev)
  }

  function Handle(cfg: Config, remote: Remote, env: Env, st: State, ev: Event): Out {
    match ev
    case OnAdd(_, _) => CreateOrUpdate(cfg, env, st, ev)
    case OnUpdate(_, _) => CreateOrUpdate(cfg, env, st, ev)
    case OnDelete(_, _) => HandleDelete(cfg, st, ev)
    case OnAddEndpoints(k, ep) => Plain(HandleEndpoints(cfg, remote, env, st, k, ep), ev)
    case OnUpdateEndpoints(k, ep) => Plain(HandleEndpoints(cfg, remote, env, st, k, ep), ev)
    case Exported(k, svc) => Plain(HandleExported(cfg, remote, env, st, k, svc), ev)
    case Updated(_, _, _, _) => HandleUpdated(cfg, remote, env, st, ev)
    case Unexported(k) => Plain(HandleUnexported(cfg, env, st, k), ev)
    case CreateFederated(k, svc) => Plain(HandleCreateFederated(cfg, env, st, k, svc), ev)
    case JoinFederated(_, _, _) => HandleJoin(cfg, env, st, ev)
    case LeaveFederated(k) => Plain(HandleLeave(cfg, env, st, k), ev)
    case ClusterUnregistered => Plain(HandleCleanup(cfg, env, st), ev)
    case GcTriggered => Plain(HandleGc(cfg, remote, env, st), ev)
    case RepairEndpoints => Plain(HandleRepair(cfg, remote, env, st), ev)
    case NamespaceAdded(ns) => HandleNamespaceAdded(remote, env, st, ns)
  }
}
