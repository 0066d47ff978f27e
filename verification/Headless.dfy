/** Mirrors of headless services: a headless local service whose addresses are the cluster IPs of
    auxiliary services, one per named remote address. */
module HeadlessMirror {
  import opened Strings
  import opened Kubernetes
  import opened Mirror
  import opened Api

  /** The remote service being mirrored, and the version of the endpoints event that is handled. */
  datatype Source = Source(key: Key, svc: Service, version: nat)

  predicate IsHeadlessEndpoints(ep: Endpoints) {
    IS_HEADLESS_SERVICE in ep.labels
  }

  predicate Named(a: Address) {
    a.hostname != ""
  }

  /** At least one address, ready or not, has a hostname. */
  predicate ExportsAsHeadless(ep: Endpoints) {
    exists i :: 0 <= i < |ep.subsets| &&
      ((exists j :: 0 <= j < |ep.subsets[i].addresses| && Named(ep.subsets[i].addresses[j])) ||
       (exists j :: 0 <= j < |ep.subsets[i].notReady| && Named(ep.subsets[i].notReady[j])))
  }

  method ShouldExportAsHeadlessService(ep: Endpoints) returns (r: bool)
    ensures r <==> ExportsAsHeadless(ep)
  {
    for i := 0 to |ep.subsets|
      invariant forall n :: 0 <= n < i ==>
        (forall j :: 0 <= j < |ep.subsets[n].addresses| ==> !Named(ep.subsets[n].addresses[j])) &&
        (forall j :: 0 <= j < |ep.subsets[n].notReady| ==> !Named(ep.subsets[n].notReady[j]))
    {
      var subset := ep.subsets[i];
      for j := 0 to |subset.addresses|
        invariant forall m :: 0 <= m < j ==> !Named(subset.addresses[m])
      {
        if subset.addresses[j].hostname != "" {
          return true;
        }
      }
      for j := 0 to |subset.notReady|
        invariant forall m :: 0 <= m < j ==> !Named(subset.notReady[m])
      {
        if subset.notReady[j].hostname != "" {
          return true;
        }
      }
    }
    return false;
  }

  /* ---------- endpoint mirrors ---------- */

  function HostKey(cfg: Config, src: Source, host: string): Key {
    Key(src.key.ns, MirrorName(cfg.link, host))
  }

  function EndpointMirrorLabels(cfg: Config, src: Source): Labels {
    MirrorLabels(cfg.link, src.key, src.svc.labels)[HEADLESS_NAME := MirrorName(cfg.link, src.key.name)]
  }

  function EndpointMirrorFqName(cfg: Config, src: Source, host: string): string {
    host + "." + FqName(cfg.link, src.key)
  }

  function NewEndpointMirror(cfg: Config, src: Source, host: string): Service {
    Service(
      EndpointMirrorLabels(cfg, src),
      map[REMOTE_VERSION := FormatNat(src.version)][REMOTE_FQ_NAME := EndpointMirrorFqName(cfg, src, host)],
      RemapPorts(src.svc.ports), "", 0)
  }

  function NewEndpointMirrorEndpoints(cfg: Config, src: Source, host: string,
                                      addresses: seq<Address>, ports: seq<EndpointPort>): Endpoints {
    Endpoints(
      EndpointMirrorLabels(cfg, src),
      GatewayAnnotations(cfg.link, EndpointMirrorFqName(cfg, src, host)),
      GatewaySubsets(addresses, ports), 0)
  }

  datatype Created = Created(st: State, ip: string, outcome: Outcome)

  /** createEndpointMirrorService: the service, then its endpoints, with the service undone on failure. */
  function CreateEndpointMirror(cfg: Config, env: Env, st: State, src: Source, host: string): Created {
    var addresses := ResolveGateway(cfg.link, env.lookup);
    var ports := EndpointPorts(cfg.link, src.svc.ports);
    if addresses.None? then Created(st, "", Retry)
    else if ports.None? then Created(st, "", Fail)
    else
      var k := HostKey(cfg, src, host);
      var (st1, made) := CreateService(env, st, k, NewEndpointMirror(cfg, src, host));
      if made != Ok && made != AlreadyExists then Created(st1, "", Retry)
      else
        var ip := if made == Ok then env.assignIP(k) else "";
        var ep := ByLiveness(st1, NewEndpointMirrorEndpoints(cfg, src, host, addresses.value, ports.value));
        var (st2, endpointsMade) := CreateEndpoints(env, st1, k, ep);
        if endpointsMade == Ok then Created(st2, ip, Done)
        else Created(DeleteService(env, st2, k).0, ip, Retry)
  }

  /* ---------- updating the endpoints of an existing headless mirror ---------- */

  /** What the nested loops have computed so far: names of wanted endpoint mirrors, and the output. */
  datatype Sync<T> = Sync(st: State, wanted: set<string>, out: seq<T>, outcome: Outcome)

  function SyncAddress(cfg: Config, env: Env, src: Source, a: Address, acc: Sync<Address>): Sync<Address> {
    if !Named(a) then acc
    else
      var k := HostKey(cfg, src, a.hostname);
      if !env.ok(GetService(k)) then acc.(outcome := Fail)
      else if k in acc.st.services then
        acc.(wanted := acc.wanted + {k.name},
             out := acc.out + [Address(acc.st.services[k].clusterIP, a.hostname, None)])
      else
        var made := CreateEndpointMirror(cfg, env, acc.st, src, a.hostname);
        if made.outcome != Done then acc.(st := made.st, outcome := made.outcome)
        else Sync(made.st, acc.wanted + {k.name}, acc.out + [Address(made.ip, a.hostname, None)], Done)
  }

  function SyncAddresses(cfg: Config, env: Env, src: Source, addresses: seq<Address>, acc: Sync<Address>): Sync<Address>
    decreases |addresses|
  {
    if addresses == [] || acc.outcome != Done then acc
    else SyncAddresses(cfg, env, src, addresses[1..], SyncAddress(cfg, env, src, addresses[0], acc))
  }

  function SyncSubset(cfg: Config, env: Env, src: Source, s: Subset, acc: Sync<Subset>): Sync<Subset> {
    var r := SyncAddresses(cfg, env, src, s.addresses, Sync(acc.st, acc.wanted, [], Done));
    if r.outcome != Done || r.out == [] then Sync(r.st, r.wanted, acc.out, r.outcome)
    else Sync(r.st, r.wanted, acc.out + [Subset(r.out, [], s.ports)], Done)
  }

  function SyncSubsets(cfg: Config, env: Env, src: Source, subsets: seq<Subset>, acc: Sync<Subset>): Sync<Subset>
    decreases |subsets|
  {
    if subsets == [] || acc.outcome != Done then acc
    else SyncSubsets(cfg, env, src, subsets[1..], SyncSubset(cfg, env, src, subsets[0], acc))
  }

  /** The services labelled as endpoint mirrors of a headless mirror, in every namespace. */
  function EndpointMirrorsOf(st: State, mirrorName: string): set<Key> {
    set k | k in st.services && HEADLESS_NAME in st.services[k].labels
            && st.services[k].labels[HEADLESS_NAME] == mirrorName
  }

  function Unwanted(st: State, mirrorName: string, wanted: set<string>): set<Key> {
    set k | k in EndpointMirrorsOf(st, mirrorName) && k.name !in wanted
  }

  /** The diff-sync of an existing headless mirror whose endpoints were read as `local`. */
  function SyncHeadless(cfg: Config, env: Env, st: State, src: Source, exported: Endpoints,
                        local: Endpoints): (State, Outcome) {
    var r := SyncSubsets(cfg, env, src, exported.subsets, Sync(st, {}, [], Done));
    if r.outcome != Done then (r.st, r.outcome)
    else if !env.ok(ListServices) then (r.st, Fail)
    else
      var mk := MirrorKey(cfg.link, src.key);
      var unwanted := Unwanted(r.st, mk.name, r.wanted);
      var st1 := Purge(env, r.st, unwanted);
      if exists k :: k in unwanted && !env.ok(DeleteServiceCall(k)) then (st1, Retry)
      else
        var (st2, updated) := UpdateEndpoints(env, st1, mk, ByLiveness(st1, local.(subsets := r.out)));
        (st2, if updated == Ok then Done else Retry)
  }

  /* ---------- creating the endpoints of a new headless mirror ---------- */

  /** The hostname of the created address is the name of the target pod; an address without one
      makes the handler dereference nil. */
  function MakeAddress(cfg: Config, env: Env, src: Source, a: Address, acc: Sync<Address>): Sync<Address> {
    if !Named(a) then acc
    else
      var made := CreateEndpointMirror(cfg, env, acc.st, src, a.hostname);
      if made.outcome != Done then acc.(st := made.st)
      else if a.targetRef.None? then acc.(st := made.st, outcome := Crash)
      else acc.(st := made.st, out := acc.out + [Address(made.ip, a.targetRef.value, None)])
  }

  function MakeAddresses(cfg: Config, env: Env, src: Source, addresses: seq<Address>, acc: Sync<Address>): Sync<Address>
    decreases |addresses|
  {
    if addresses == [] || acc.outcome != Done then acc
    else MakeAddresses(cfg, env, src, addresses[1..], MakeAddress(cfg, env, src, addresses[0], acc))
  }

  function MakeSubset(cfg: Config, env: Env, src: Source, s: Subset, acc: Sync<Subset>): Sync<Subset> {
    var r := MakeAddresses(cfg, env, src, s.addresses, Sync(acc.st, {}, [], Done));
    if r.outcome != Done || r.out == [] then Sync(r.st, {}, acc.out, r.outcome)
    else Sync(r.st, {}, acc.out + [Subset(r.out, [], s.ports)], Done)
  }

  function MakeSubsets(cfg: Config, env: Env, src: Source, subsets: seq<Subset>, acc: Sync<Subset>): Sync<Subset>
    decreases |subsets|
  {
    if subsets == [] || acc.outcome != Done then acc
    else MakeSubsets(cfg, env, src, subsets[1..], MakeSubset(cfg, env, src, subsets[0], acc))
  }

  /** These addresses point at auxiliary services, so they are ready whatever the gateway's liveness. */
  function CreateHeadlessEndpoints(cfg: Config, env: Env, st: State, src: Source,
                                   exported: Endpoints): (State, Outcome) {
    var r := MakeSubsets(cfg, env, src, exported.subsets, Sync(st, {}, [], Done));
    if r.outcome != Done then (r.st, r.outcome)
    else
      var mk := MirrorKey(cfg.link, src.key);
      var ep := Endpoints(EndpointLabels(cfg.link, src.svc.labels),
                          GatewayAnnotations(cfg.link, FqName(cfg.link, src.key)), r.out, 0);
      var (st1, created) := CreateEndpoints(env, r.st, mk, ep);
      if created == Ok then (st1, Done) else (DeleteService(env, st1, mk).0, Retry)
  }

  /* ---------- the whole handler ---------- */

  /** Creates the mirror service of a headless service; `clusterIP` of the answer is "" when none was made. */
  function CreateHeadlessService(cfg: Config, env: Env, st: State, src: Source, exported: Endpoints): Created {
    if exported.subsets == [] then Created(st, "", Done)
    else
      var (st1, ns) := EnsureNamespace(cfg, env, st, src.key.ns);
      if ns == Unknown then Created(st1, "", Retry)
      else if ns == Absent then Created(st1, "", Done)
      else
        var mk := MirrorKey(cfg.link, src.key);
        var clusterIP := if ExportsAsHeadless(exported) then CLUSTER_IP_NONE else "";
        var svc := NewMirror(cfg, src.key, src.svc, clusterIP);
        var (st2, created) := CreateService(env, st1, mk, svc);
        if created == Ok then Created(st2, Stamp(env, st1, mk, svc).clusterIP, Done)
        else Created(st2, "", if created == AlreadyExists then Fail else Retry)
  }

  function HandleHeadless(cfg: Config, remote: Remote, env: Env, st: State, k: Key,
                          exported: Endpoints): (State, Outcome) {
    if !env.ok(RemoteGetService(k)) || k !in remote.services then (st, Fail)
    else if remote.services[k].ports == [] then (st, Done)
    else
      var src := Source(k, remote.services[k], exported.version);
      var mk := MirrorKey(cfg.link, k);
      if !env.ok(GetService(mk)) then (st, Fail)
      else
        var made := if mk in st.services then Created(st, st.services[mk].clusterIP, Done)
                    else CreateHeadlessService(cfg, env, st, src, exported);
        if made.outcome != Done then (made.st, made.outcome)
        else if !env.ok(GetEndpoints(mk)) then (made.st, Fail)
        else if mk !in made.st.endpoints then
          if made.ip != CLUSTER_IP_NONE then CreateGatewayEndpoints(cfg, remote, env, made.st, k, src.svc)
          else CreateHeadlessEndpoints(cfg, env, made.st, src, exported)
        else if made.ip != CLUSTER_IP_NONE then (made.st, Done)
        else SyncHeadless(cfg, env, made.st, src, exported, made.st.endpoints[mk])
  }
}
