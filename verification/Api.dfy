/** The local cluster as one watcher sees it, the calls it can make there, and how each call may end. */
module Api {
  import opened Kubernetes
  import opened Mirror
  import opened StatusList

  datatype Config = Config(
    link: Link,
    mirrorNamespace: string,
    requeueLimit: int,
    headlessEnabled: bool,
    namespaceCreation: bool)

  /** Listers return the current contents, so `Remote` is what the remote informers hold. */
  datatype Remote = Remote(services: map<Key, Service>, endpoints: map<Key, Endpoints>)

  /** `now` is the resourceVersion the API server gives to whatever the current step writes. */
  datatype State = State(
    services: map<Key, Service>,
    endpoints: map<Key, Endpoints>,
    namespaces: set<string>,
    mirrorStatus: seq<Status>,
    federatedStatus: seq<Status>,
    gatewayAlive: bool,
    now: nat)

  datatype Call =
    | GetNamespace(ns: string) | CreateNamespace(ns: string)
    | GetService(key: Key) | ListServices
    | CreateServiceCall(key: Key) | UpdateServiceCall(key: Key) | DeleteServiceCall(key: Key)
    | GetEndpoints(key: Key) | ListEndpoints
    | CreateEndpointsCall(key: Key) | UpdateEndpointsCall(key: Key) | DeleteEndpointsCall(key: Key)
    | RemoteGetService(key: Key) | RemoteListServices(ns: string) | RemoteGetEndpoints(key: Key)

  /** Everything one handler run does not control: which calls fail, DNS, the cluster IPs the server
      assigns, and the order in which listers enumerate. */
  datatype Env = Env(
    ok: Call -> bool,
    lookup: Resolver,
    assignIP: Key -> string,
    list: set<Key> -> seq<Key>)

  predicate Enumerates(s: seq<Key>, keys: set<Key>) {
    && (forall i :: 0 <= i < |s| ==> s[i] in keys)
    && (forall k :: k in keys ==> k in s)
    && (forall i, j :: 0 <= i < j < |s| ==> s[i] != s[j])
  }

  ghost predicate ValidEnv(env: Env) {
    && (forall k :: env.assignIP(k) != CLUSTER_IP_NONE)
    && (forall keys :: Enumerates(env.list(keys), keys))
  }

  /** How an API call ends. */
  datatype Answer = Ok | AlreadyExists | NotFound | Conflict | Failed

  /** How a handler ends: nil, a RetryableError, any other error, or a panic on nil. */
  datatype Outcome = Done | Retry | Fail | Crash

  /* ---------- services ---------- */

  function Stamp(env: Env, st: State, k: Key, svc: Service): Service {
    svc.(version := st.now, clusterIP := if svc.clusterIP == CLUSTER_IP_NONE then CLUSTER_IP_NONE else env.assignIP(k))
  }

  function CreateService(env: Env, st: State, k: Key, svc: Service): (State, Answer) {
    if !env.ok(CreateServiceCall(k)) then (st, Failed)
    else if k.ns !in st.namespaces then (st, NotFound)
    else if k in st.services then (st, AlreadyExists)
    else (st.(services := st.services[k := Stamp(env, st, k, svc)]), Ok)
  }

  /** Compare-and-swap on the resourceVersion the object was read with. */
  function UpdateService(env: Env, st: State, k: Key, svc: Service): (State, Answer) {
    if !env.ok(UpdateServiceCall(k)) then (st, Failed)
    else if k !in st.services then (st, NotFound)
    else if st.services[k].version != svc.version then (st, Conflict)
    else (st.(services := st.services[k := svc.(version := st.now)]), Ok)
  }

  /** Deleting a service takes its endpoints with it. */
  function DeleteService(env: Env, st: State, k: Key): (State, Answer) {
    if !env.ok(DeleteServiceCall(k)) then (st, Failed)
    else if k !in st.services then (st, NotFound)
    else (st.(services := st.services - {k}, endpoints := st.endpoints - {k}), Ok)
  }

  /** Deleting every service of a set, skipping the calls that fail. */
  function Purge(env: Env, st: State, keys: set<Key>): State {
    var gone := set k | k in keys && k in st.services && env.ok(DeleteServiceCall(k));
    st.(services := st.services - gone, endpoints := st.endpoints - gone)
  }

  /* ---------- endpoints ---------- */

  function CreateEndpoints(env: Env, st: State, k: Key, ep: Endpoints): (State, Answer) {
    if !env.ok(CreateEndpointsCall(k)) then (st, Failed)
    else if k.ns !in st.namespaces then (st, NotFound)
    else if k in st.endpoints then (st, AlreadyExists)
    else (st.(endpoints := st.endpoints[k := ep.(version := st.now)]), Ok)
  }

  function UpdateEndpoints(env: Env, st: State, k: Key, ep: Endpoints): (State, Answer) {
    if !env.ok(UpdateEndpointsCall(k)) then (st, Failed)
    else if k !in st.endpoints then (st, NotFound)
    else if st.endpoints[k].version != ep.version then (st, Conflict)
    else (st.(endpoints := st.endpoints[k := ep.(version := st.now)]), Ok)
  }

  function DeleteEndpoints(env: Env, st: State, k: Key): (State, Answer) {
    if !env.ok(DeleteEndpointsCall(k)) then (st, Failed)
    else if k !in st.endpoints then (st, NotFound)
    else (st.(endpoints := st.endpoints - {k}), Ok)
  }

  /** createMirrorEndpoints and updateMirrorEndpoints write only what the gateway's liveness allows. */
  function ByLiveness(st: State, ep: Endpoints): Endpoints {
    ep.(subsets := Readiness(st.gatewayAlive, ep.subsets))
  }

  /* ---------- namespaces ---------- */

  datatype NamespaceAnswer = Present | Absent | Unknown

  /** Makes sure the namespace of a mirror exists, creating it when the watcher is allowed to. */
  function EnsureNamespace(cfg: Config, env: Env, st: State, ns: string): (State, NamespaceAnswer) {
    if !env.ok(GetNamespace(ns)) then (st, Unknown)
    else if ns in st.namespaces then (st, Present)
    else if !cfg.namespaceCreation then (st, Absent)
    else if env.ok(CreateNamespace(ns)) then (st.(namespaces := st.namespaces + {ns}), Present)
    else (st, Unknown)
  }

  /* ---------- Link status ---------- */

  /** The local cluster has no Link resource, hence no status. */
  function PutMirrorStatus(cfg: Config, st: State, k: Key, c: Condition): State {
    if cfg.link.cluster == "" then st else st.(mirrorStatus := Update(st.mirrorStatus, k, c))
  }

  function DropMirrorStatus(cfg: Config, st: State, k: Key): State {
    if cfg.link.cluster == "" then st else st.(mirrorStatus := Delete(st.mirrorStatus, k))
  }

  function PutFederatedStatus(cfg: Config, st: State, k: Key, c: Condition): State {
    if cfg.link.cluster == "" then st else st.(federatedStatus := Update(st.federatedStatus, k, c))
  }

  function DropFederatedStatus(cfg: Config, st: State, k: Key): State {
    if cfg.link.cluster == "" then st else st.(federatedStatus := Delete(st.federatedStatus, k))
  }

  /* ---------- mirrors in gateway mode ---------- */

  function RemoteIsEmpty(remote: Remote, k: Key): bool {
    k !in remote.endpoints || !HasReady(remote.endpoints[k].subsets)
  }

  /** The remote service has an address that is ready. */
  predicate Served(remote: Remote, k: Key) {
    k in remote.endpoints && exists s :: s in remote.endpoints[k].subsets && s.addresses != []
  }

  lemma EmptyIsNotServed(remote: Remote, k: Key)
    ensures RemoteIsEmpty(remote, k) <==> !Served(remote, k)
  {
    if k in remote.endpoints && HasReady(remote.endpoints[k].subsets) {
      var subsets := remote.endpoints[k].subsets;
      var i :| 0 <= i < |subsets| && |subsets[i].addresses| > 0;
      assert subsets[i] in subsets;
    }
  }

  function GatewaySubsets(addresses: seq<Address>, ports: seq<EndpointPort>): seq<Subset> {
    [Subset(addresses, [], ports)]
  }

  function GatewayAnnotations(link: Link, fqName: string): Labels {
    if link.gatewayIdentity == "" then map[REMOTE_FQ_NAME := fqName]
    else map[REMOTE_FQ_NAME := fqName][GATEWAY_IDENTITY := link.gatewayIdentity]
  }

  /** The endpoints object of a new gateway mirror; a successful resolution is never empty. */
  function NewGatewayEndpoints(cfg: Config, remote: Remote, k: Key, svc: Service,
                               addresses: seq<Address>, ports: seq<EndpointPort>): Endpoints {
    Endpoints(
      EndpointLabels(cfg.link, svc.labels),
      GatewayAnnotations(cfg.link, FqName(cfg.link, k)),
      if RemoteIsEmpty(remote, k) then [] else GatewaySubsets(addresses, ports),
      0)
  }

  /** Creates the gateway endpoints of a mirror and deletes the mirror again when that fails. */
  function CreateGatewayEndpoints(cfg: Config, remote: Remote, env: Env, st: State, k: Key,
                                  svc: Service): (State, Outcome) {
    var addresses := ResolveGateway(cfg.link, env.lookup);
    var ports := EndpointPorts(cfg.link, svc.ports);
    if !env.ok(RemoteGetEndpoints(k)) || addresses.None? then (st, Retry)
    else if ports.None? then (st, Fail)
    else
      var mk := MirrorKey(cfg.link, k);
      var ep := ByLiveness(st, NewGatewayEndpoints(cfg, remote, k, svc, addresses.value, ports.value));
      var (st', created) := CreateEndpoints(env, st, mk, ep);
      if created == Ok then (st', Done) else (DeleteService(env, st', mk).0, Retry)
  }

  /** The mirror service computed from a remote service. */
  function NewMirror(cfg: Config, k: Key, svc: Service, clusterIP: string): Service {
    Service(MirrorLabels(cfg.link, k, svc.labels), MirrorAnnotations(cfg.link, k, svc), RemapPorts(svc.ports),
            clusterIP, 0)
  }

  /* ---------- namespaces ---------- */

  lemma SameNamespace(cfg: Config, k: Key)
    ensures MirrorKey(cfg.link, k).ns == k.ns
  {
  }

  lemma EnsureNamespaceFacts(cfg: Config, env: Env, st: State, ns: string)
    ensures var (post, found) := EnsureNamespace(cfg, env, st, ns);
            && post == st.(namespaces := post.namespaces)
            && (found == Present ==> ns in post.namespaces)
  {
  }
}
